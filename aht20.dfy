/**
 * The AHT20 humidity and temperature sensor driver (src/device/aht20.hpp):
 * the command bytes it writes and the decoding of one six-byte measurement,
 * following section 6 ("Signal Transformation") of the Aosong AHT20
 * datasheet. The I2C bus is modelled by the list of byte strings written to
 * it; the bytes read back are parameters. Single-precision results are exact
 * reals here.
 */
module Aht20Driver {
  import opened Common

  /** The initialisation writes: register 0xBE with 0x08, then with 0x00. */
  const INIT_SEQUENCE: seq<seq<byte>> := [[0xBE, 0x08], [0xBE, 0x00]]

  /** The trigger-measurement command. */
  const MEASURE_COMMAND: seq<byte> := [0xAC, 0x33, 0x00]

  /** 2^20: the full scale of both readings. */
  const FULL_SCALE: int := 0x10_0000

  /** Bit 7 of the status byte: a conversion is still in progress. */
  predicate Busy(status: byte)
  {
    status >= 0x80
  }

  /** The 20-bit humidity field: byte 1, byte 2 and the high nibble of byte 3. */
  function RawHumidity(b1: byte, b2: byte, b3: byte): (r: nat)
    ensures r < FULL_SCALE
  {
    Field20(b1, b2, b3)
  }

  /** The 20-bit temperature field: the low nibble of byte 3, byte 4 and byte 5. */
  function RawTemperature(b3: byte, b4: byte, b5: byte): (r: nat)
    ensures r < FULL_SCALE
  {
    (b3 % 0x10) * 0x1_0000 + b4 * 0x100 + b5
  }

  /** Bytes 1 to 5 of a measurement carrying the two 20-bit fields. */
  function MeasurementBytes(rawH: nat, rawT: nat): (b: seq<byte>)
    requires rawH < FULL_SCALE && rawT < FULL_SCALE
    ensures |b| == 5
  {
    [rawH / 0x1000, (rawH / 0x10) % 0x100, (rawH % 0x10) * 0x10 + rawT / 0x1_0000, (rawT / 0x100) % 0x100, rawT % 0x100]
  }

  /** Decoding the bytes that carry two fields gives back both fields. */
  lemma FieldsRoundTrip(rawH: nat, rawT: nat)
    requires rawH < FULL_SCALE && rawT < FULL_SCALE
    ensures var b := MeasurementBytes(rawH, rawT);
      RawHumidity(b[0], b[1], b[2]) == rawH && RawTemperature(b[2], b[3], b[4]) == rawT
  {
    var b := MeasurementBytes(rawH, rawT);
    assert b[2] / 0x10 == rawH % 0x10 && b[2] % 0x10 == rawT / 0x1_0000;
  }

  /**
   * Every byte takes part in exactly one field, except byte 3, whose high
   * nibble belongs to the humidity and whose low nibble to the temperature:
   * the two fields determine the five bytes.
   */
  lemma BytesRoundTrip(b1: byte, b2: byte, b3: byte, b4: byte, b5: byte)
    ensures MeasurementBytes(RawHumidity(b1, b2, b3), RawTemperature(b3, b4, b5)) == [b1, b2, b3, b4, b5]
  {
    var h, t := RawHumidity(b1, b2, b3), RawTemperature(b3, b4, b5);
    DivModUnique(b3, 0x10, b3 / 0x10, b3 % 0x10);
    DivModUnique(t, 0x1_0000, b3 % 0x10, b4 * 0x100 + b5);
    DivModUnique(t, 0x100, (b3 % 0x10) * 0x100 + b4, b5);
    DivModUnique((b3 % 0x10) * 0x100 + b4, 0x100, b3 % 0x10, b4);
  }

  /** Relative humidity in percent: raw * 100 / 2^20. */
  function Humidity(rawH: nat): (h: real)
    requires rawH < FULL_SCALE
    ensures 0.0 <= h < 100.0
    ensures (h == 0.0) == (rawH == 0)
  {
    rawH as real * 100.0 / FULL_SCALE as real
  }

  /** Temperature in degrees Celsius: raw * 200 / 2^20 - 50. */
  function Temperature(rawT: nat): (t: real)
    requires rawT < FULL_SCALE
    ensures -50.0 <= t < 150.0
  {
    rawT as real * 200.0 / FULL_SCALE as real - 50.0
  }

  /** Both conversions are strictly increasing, so no two raw values give the same reading. */
  lemma ConversionsIncreasing(r1: nat, r2: nat)
    requires r1 < r2 < FULL_SCALE
    ensures Humidity(r1) < Humidity(r2)
    ensures Temperature(r1) < Temperature(r2)
  {
  }

  /**
   * The stored humidity and temperature after reading `buf`: nothing changes
   * while the sensor is busy; otherwise the temperature is always taken,
   * the humidity only when it is not zero.
   */
  function AfterMeasurement(humidity: real, temperature: real, buf: seq<byte>): (r: (real, real))
    requires |buf| == 6
  {
    if Busy(buf[0]) then (humidity, temperature)
    else
      var h := Humidity(RawHumidity(buf[1], buf[2], buf[3]));
      (if h != 0.0 then h else humidity, Temperature(RawTemperature(buf[3], buf[4], buf[5])))
  }

  /** The readings kept by a measurement, case by case. */
  lemma MeasurementMeaning(humidity: real, temperature: real, buf: seq<byte>)
    requires |buf| == 6
    ensures var (h, t) := AfterMeasurement(humidity, temperature, buf);
      && (Busy(buf[0]) ==> h == humidity && t == temperature)
      && (!Busy(buf[0]) ==> -50.0 <= t < 150.0 && t == Temperature(RawTemperature(buf[3], buf[4], buf[5])))
      && (!Busy(buf[0]) && RawHumidity(buf[1], buf[2], buf[3]) != 0 ==> 0.0 < h < 100.0 && h == Humidity(RawHumidity(buf[1], buf[2], buf[3])))
      && (!Busy(buf[0]) && RawHumidity(buf[1], buf[2], buf[3]) == 0 ==> h == humidity)
  {
  }

  class Aht20 {
    var humidity: real
    var temperature: real
    /** The byte strings written to the bus so far. */
    var written: seq<seq<byte>>

    /** Construction runs InitSensor; starting the measurement thread is not modelled. */
    constructor ()
      ensures humidity == 0.0 && temperature == 0.0
      ensures written == INIT_SEQUENCE
    {
      humidity := 0.0;
      temperature := 0.0;
      written := [];
      new;
      InitSensor();
    }

    method InitSensor()
      modifies this`written
      ensures written == old(written) + INIT_SEQUENCE
    {
      written := written + [[0xBE, 0x08]];
      written := written + [[0xBE, 0x00]];
    }

    /**
     * ReadSensor, with `buf` the six bytes the sensor answers: the command,
     * then the register pointer of the read, go out first.
     */
    method ReadSensor(buf: seq<byte>)
      requires |buf| == 6
      modifies this`written, this`humidity, this`temperature
      ensures written == old(written) + [MEASURE_COMMAND, [0x00]]
      ensures (humidity, temperature) == AfterMeasurement(old(humidity), old(temperature), buf)
    {
      written := written + [MEASURE_COMMAND];
      written := written + [[0x00]];
      if Busy(buf[0]) {
        return;
      }
      var rawH := RawHumidity(buf[1], buf[2], buf[3]);
      var h := Humidity(rawH);
      if h != 0.0 {
        humidity := h;
      }
      var rawT := RawTemperature(buf[3], buf[4], buf[5]);
      temperature := Temperature(rawT);
    }
  }
}
