/**
 * The BMP280 temperature and pressure sensor driver (src/device/bmp280.hpp):
 * the chip-id check, the calibration decoding, the raw readings and the
 * 32-bit temperature and 64-bit pressure compensation of section 3.11.3 of
 * the Bosch BMP280 datasheet. The I2C bus is modelled by the list of byte
 * strings written to it; the bytes read back are parameters. Signed shifts
 * are floor divisions or multiplications by powers of two; every
 * intermediate that is stored in an int32_t or int64_t must fit it.
 */
module Bmp280Driver {
  import opened Common

  const I2C_ADDRESS: byte := 0x77
  /** The value of the id register of a genuine BMP280. */
  const CHIP_ID: byte := 0x58

  const REG_ID: byte := 0xD0
  const REG_RESET: byte := 0xE0
  const REG_CTRL_MEAS: byte := 0xF4
  const REG_CONFIG: byte := 0xF5
  const REG_PRESS_MSB: byte := 0xF7
  const REG_TEMP_MSB: byte := 0xFA
  const REG_CALIB: byte := 0x88

  /** Oversampling x1 for temperature and pressure, normal mode. */
  const CTRL_MEAS_NORMAL: byte := 0x27
  /** Standby 0.5 ms, filter off. */
  const CONFIG_DEFAULT: byte := 0x00

  /** What the constructor writes: the id register pointer, the calibration pointer, Configure's two writes. */
  const OPEN_SEQUENCE: seq<seq<byte>> :=
    [[REG_ID], [REG_CALIB], [REG_CTRL_MEAS, CTRL_MEAS_NORMAL], [REG_CONFIG, CONFIG_DEFAULT]]

  /** The trimming parameters dig_T1..dig_T3 and dig_P1..dig_P9. */
  datatype Calibration = Calibration(
    t1: int, t2: int, t3: int,
    p1: int, p2: int, p3: int, p4: int, p5: int, p6: int, p7: int, p8: int, p9: int)

  /** dig_T1 and dig_P1 are uint16_t, the others int16_t. */
  predicate CalibrationWidths(c: Calibration)
  {
    && 0 <= c.t1 < 0x1_0000 && InInt16(c.t2) && InInt16(c.t3)
    && 0 <= c.p1 < 0x1_0000 && InInt16(c.p2) && InInt16(c.p3) && InInt16(c.p4)
    && InInt16(c.p5) && InInt16(c.p6) && InInt16(c.p7) && InInt16(c.p8) && InInt16(c.p9)
  }

  /** A byte string read as consecutive little-endian 16-bit words. */
  function LittleEndianWords(buf: seq<byte>): (ws: seq<int>)
    requires |buf| % 2 == 0
    ensures |ws| == |buf| / 2
    ensures forall k :: 0 <= k < |ws| ==> ws[k] == Word(buf[2 * k + 1], buf[2 * k])
    decreases |buf|
  {
    if buf == [] then [] else [Word(buf[1], buf[0])] + LittleEndianWords(buf[2..])
  }

  /** 16-bit patterns as bytes, each low byte first. */
  function LittleEndianBytes(ws: seq<int>): (buf: seq<byte>)
    requires forall k :: 0 <= k < |ws| ==> 0 <= ws[k] < 0x1_0000
    ensures |buf| == 2 * |ws|
  {
    if ws == [] then [] else [ws[0] % 0x100, ws[0] / 0x100] + LittleEndianBytes(ws[1..])
  }

  lemma {:induction false} WordsRoundTrip(ws: seq<int>)
    requires forall k :: 0 <= k < |ws| ==> 0 <= ws[k] < 0x1_0000
    ensures LittleEndianWords(LittleEndianBytes(ws)) == ws
  {
    if ws != [] {
      WordsRoundTrip(ws[1..]);
      assert LittleEndianBytes(ws)[2..] == LittleEndianBytes(ws[1..]);
    }
  }

  lemma {:induction false} BytesRoundTrip(buf: seq<byte>)
    requires |buf| % 2 == 0
    ensures LittleEndianBytes(LittleEndianWords(buf)) == buf
    decreases |buf|
  {
    if buf != [] {
      BytesRoundTrip(buf[2..]);
      assert LittleEndianWords(buf)[1..] == LittleEndianWords(buf[2..]);
      assert buf == [buf[0], buf[1]] + buf[2..];
    }
  }

  /** The twelve calibration words: dig_T1 and dig_P1 unsigned, the others two's complement. */
  function FromWords(ws: seq<int>): (c: Calibration)
    requires |ws| == 12 && forall k :: 0 <= k < 12 ==> 0 <= ws[k] < 0x1_0000
    ensures CalibrationWidths(c)
  {
    Calibration(
      ws[0], ToInt16(ws[1]), ToInt16(ws[2]),
      ws[3], ToInt16(ws[4]), ToInt16(ws[5]), ToInt16(ws[6]),
      ToInt16(ws[7]), ToInt16(ws[8]), ToInt16(ws[9]), ToInt16(ws[10]), ToInt16(ws[11]))
  }

  /** The calibration words holding the trimming parameters `c`. */
  function ToWords(c: Calibration): (ws: seq<int>)
    requires CalibrationWidths(c)
    ensures |ws| == 12 && forall k :: 0 <= k < 12 ==> 0 <= ws[k] < 0x1_0000
  {
    [c.t1, FromInt16(c.t2), FromInt16(c.t3),
     c.p1, FromInt16(c.p2), FromInt16(c.p3), FromInt16(c.p4),
     FromInt16(c.p5), FromInt16(c.p6), FromInt16(c.p7), FromInt16(c.p8), FromInt16(c.p9)]
  }

  /** ReadCalibration: the twelve little-endian words of the 24 bytes at 0x88. */
  function DecodeCalibration(buf: seq<byte>): (c: Calibration)
    requires |buf| == 24
    ensures CalibrationWidths(c)
  {
    FromWords(LittleEndianWords(buf))
  }

  /** The calibration block a sensor with trimming parameters `c` holds. */
  function EncodeCalibration(c: Calibration): (buf: seq<byte>)
    requires CalibrationWidths(c)
    ensures |buf| == 24
  {
    LittleEndianBytes(ToWords(c))
  }

  /** Decoding recovers every trimming parameter, the signed ones included. */
  lemma CalibrationRoundTrip(c: Calibration)
    requires CalibrationWidths(c)
    ensures DecodeCalibration(EncodeCalibration(c)) == c
  {
    WordsRoundTrip(ToWords(c));
    Int16RoundTrip(c.t2, 0); Int16RoundTrip(c.t3, 0);
    Int16RoundTrip(c.p2, 0); Int16RoundTrip(c.p3, 0); Int16RoundTrip(c.p4, 0);
    Int16RoundTrip(c.p5, 0); Int16RoundTrip(c.p6, 0); Int16RoundTrip(c.p7, 0);
    Int16RoundTrip(c.p8, 0); Int16RoundTrip(c.p9, 0);
  }

  /** Every byte of the calibration block is used: encoding the decoded parameters gives the block back. */
  lemma CalibrationBytesRoundTrip(buf: seq<byte>)
    requires |buf| == 24
    ensures EncodeCalibration(DecodeCalibration(buf)) == buf
  {
    var ws := LittleEndianWords(buf);
    forall k | 0 <= k < 12
      ensures ToWords(FromWords(ws))[k] == ws[k]
    {
      Int16RoundTrip(0, ws[k]);
    }
    assert ToWords(FromWords(ws)) == ws;
    BytesRoundTrip(buf);
  }

  /** ReadRawTemperature and ReadRawPressure: a 20-bit reading, most significant byte first. */
  function RawReading(data: seq<byte>): (r: nat)
    requires |data| == 3
    ensures r < 0x10_0000
  {
    Field20(data[0], data[1], data[2])
  }

  // ---------------------------------------------------------------- temperature

  /** (adc_T >> 4) - dig_T1. */
  function TempDelta(c: Calibration, adcT: int): int
  {
    adcT / 16 - c.t1
  }

  /** The int32_t products of CompensateTemperature do not overflow. */
  predicate TemperatureDefined(c: Calibration, adcT: int)
  {
    && InInt32(adcT)
    && InInt32((adcT / 8 - c.t1 * 2) * c.t2)
    && InInt32(TempDelta(c, adcT) * TempDelta(c, adcT))
    && InInt32(TempDelta(c, adcT) * TempDelta(c, adcT) / 0x1000 * c.t3)
  }

  lemma MulLe(a: int, b: int, k: nat)
    requires a <= b
    ensures a * k <= b * k
  {
  }

  /** The squared term fits an int32_t exactly when the delta is at most 46340 in magnitude. */
  lemma DeltaSquareFits(d: int)
    ensures InInt32(d * d) <==> Abs(d) <= 46340
  {
    var a := Abs(d);
    assert d * d == a * a by {
      if d < 0 { assert d * d == (-d) * (-d); }
    }
    if a <= 46340 {
      MulLe(a, 46340, a);
      MulLe(a, 46340, 46340);
    } else {
      MulLe(46341, a, a);
      MulLe(46341, a, 46341);
    }
  }

  /** t_fine: the fine temperature shared with the pressure compensation. */
  function TFine(c: Calibration, adcT: int): (t: int)
    requires TemperatureDefined(c, adcT)
    ensures -0x12_0000 <= t < 0x12_0000
    ensures InInt32(t * 5 + 128)
  {
    var var1 := (adcT / 8 - c.t1 * 2) * c.t2 / 0x800;
    var var2 := TempDelta(c, adcT) * TempDelta(c, adcT) / 0x1000 * c.t3 / 0x4000;
    var1 + var2
  }

  /**
   * The temperature in hundredths of a degree Celsius: t_fine * 5 / 256
   * (t_fine is in units of 1/5120 degree), rounded half up.
   */
  function CentiCelsius(tFine: int): (t: int)
    ensures t * 256 - 128 <= tFine * 5 < t * 256 + 128
  {
    (tFine * 5 + 128) / 256
  }

  // ------------------------------------------------------------------- pressure

  /** var2 once complete: var1^2 * dig_P6 + (var1 * dig_P5 << 17) + (dig_P4 << 35), with var1 = t_fine - 128000. */
  function PressOffset(c: Calibration, v: int): int
  {
    v * v * c.p6 + v * c.p5 * 0x2_0000 + c.p4 * 0x8_0000_0000
  }

  /** The second var1 before the 2^47 offset: (var1^2 * dig_P3 >> 8) + (var1 * dig_P2 << 12). */
  function PressMid(c: Calibration, v: int): int
  {
    v * v * c.p3 / 0x100 + v * c.p2 * 0x1000
  }

  /** The divisor var1: ((2^47 + mid) * dig_P1) >> 33. */
  function PressScale(c: Calibration, v: int): int
  {
    (0x8000_0000_0000 + PressMid(c, v)) * c.p1 / 0x2_0000_0000
  }

  /** p after the division, which truncates toward zero. */
  function PressQuotient(c: Calibration, v: int, adcP: int): int
    requires PressScale(c, v) != 0
  {
    TruncDiv(((0x10_0000 - adcP) * 0x8000_0000 - PressOffset(c, v)) * 3125, PressScale(c, v))
  }

  /** (p + var1 + var2) >> 8, with the dig_P9 and dig_P8 corrections: the pressure in Pa, in Q24.8. */
  function PressQ248(c: Calibration, v: int, adcP: int): int
    requires PressScale(c, v) != 0
  {
    var p := PressQuotient(c, v, adcP);
    (p + c.p9 * (p / 0x2000) * (p / 0x2000) / 0x200_0000 + c.p8 * p / 0x8_0000) / 0x100
  }

  /** Every intermediate of CompensatePressure fits the int64_t it is computed in. */
  predicate PressureDefined(c: Calibration, tFine: int, adcP: int)
  {
    var v := tFine - 128000;
    && InInt32(tFine) && InInt32(adcP)
    && InInt64(v * v) && InInt64(v * v * c.p6) && InInt64(v * c.p5) && InInt64(v * c.p5 * 0x2_0000)
    && InInt64(v * v * c.p6 + v * c.p5 * 0x2_0000) && InInt64(PressOffset(c, v))
    && InInt64(v * v * c.p3) && InInt64(v * c.p2) && InInt64(v * c.p2 * 0x1000) && InInt64(PressMid(c, v))
    && InInt64(0x8000_0000_0000 + PressMid(c, v)) && InInt64((0x8000_0000_0000 + PressMid(c, v)) * c.p1)
    && (PressScale(c, v) != 0 ==>
          var p0 := 0x10_0000 - adcP;
          && InInt64(p0 * 0x8000_0000) && InInt64(p0 * 0x8000_0000 - PressOffset(c, v))
          && InInt64((p0 * 0x8000_0000 - PressOffset(c, v)) * 3125)
          && var p := PressQuotient(c, v, adcP);
          && InInt64(p)
          && InInt64(c.p9 * (p / 0x2000)) && InInt64(c.p9 * (p / 0x2000) * (p / 0x2000))
          && InInt64(c.p8 * p)
          && InInt64(p + c.p9 * (p / 0x2000) * (p / 0x2000) / 0x200_0000)
          && InInt64(p + c.p9 * (p / 0x2000) * (p / 0x2000) / 0x200_0000 + c.p8 * p / 0x8_0000))
  }

  /**
   * CompensatePressure: zero when the divisor vanishes; otherwise the Q24.8
   * value is cast to uint32_t, dig_P7 << 4 is added in int64_t, and the sum
   * is returned as uint32_t.
   */
  function CompensatePressure(c: Calibration, tFine: int, adcP: int): (r: int)
    requires PressureDefined(c, tFine, adcP)
    ensures 0 <= r < 0x1_0000_0000
    ensures PressScale(c, tFine - 128000) == 0 ==> r == 0
  {
    var v := tFine - 128000;
    if PressScale(c, v) == 0 then 0
    else (PressQ248(c, v, adcP) % 0x1_0000_0000 + c.p7 * 0x10) % 0x1_0000_0000
  }

  /** The datasheet's formulation: dig_P7 << 4 is added before the single cast to 32 bits. */
  function DatasheetPressure(c: Calibration, tFine: int, adcP: int): (r: int)
    requires PressureDefined(c, tFine, adcP)
    ensures 0 <= r < 0x1_0000_0000
  {
    var v := tFine - 128000;
    if PressScale(c, v) == 0 then 0
    else (PressQ248(c, v, adcP) + c.p7 * 0x10) % 0x1_0000_0000
  }

  /** Casting the Q24.8 value to 32 bits before adding dig_P7 << 4 changes nothing. */
  lemma PressureMatchesDatasheet(c: Calibration, tFine: int, adcP: int)
    requires PressureDefined(c, tFine, adcP)
    ensures CompensatePressure(c, tFine, adcP) == DatasheetPressure(c, tFine, adcP)
  {
    var v := tFine - 128000;
    if PressScale(c, v) != 0 {
      ModAddLeft(PressQ248(c, v, adcP), c.p7 * 0x10, 0x1_0000_0000);
    }
  }

  /** Trimming parameters and readings of the worked example in the BMP280 datasheet. */
  const EXAMPLE_CALIBRATION: Calibration :=
    Calibration(27504, 26435, -1000, 36477, -10685, 3024, 2855, 140, -7, 15500, -14600, 6000)

  /** On it the temperature compensation gives t_fine 128422, that is 25.08 degrees Celsius. */
  lemma ExampleTemperature()
    ensures CalibrationWidths(EXAMPLE_CALIBRATION)
    ensures TemperatureDefined(EXAMPLE_CALIBRATION, 519888)
    ensures TFine(EXAMPLE_CALIBRATION, 519888) == 128422
    ensures CentiCelsius(128422) == 2508
  {
    var c := EXAMPLE_CALIBRATION;
    assert TempDelta(c, 519888) == 4989;
    assert (519888 / 8 - c.t1 * 2) * c.t2 == 263768430;
    assert TempDelta(c, 519888) * TempDelta(c, 519888) / 0x1000 * c.t3 == -6076000;
  }

  /** With that t_fine the pressure compensation gives 25767233 / 256 Pa, about 100653 Pa. */
  lemma ExamplePressure()
    ensures PressureDefined(EXAMPLE_CALIBRATION, 128422, 415148)
    ensures CompensatePressure(EXAMPLE_CALIBRATION, 128422, 415148) == 25767233
  {
    var c, v := EXAMPLE_CALIBRATION, 422;
    assert v * v == 178084;
    assert PressOffset(c, v) == 98104795527812;
    assert PressMid(c, v) == -18467047103;
    assert (0x8000_0000_0000 + PressMid(c, v)) * c.p1 == 5133007740260123325;
    assert PressScale(c, v) == 597560748;
    assert ((0x10_0000 - 415148) * 0x8000_0000 - PressOffset(c, v)) * 3125 == 3944285864554787500;
    assert PressQuotient(c, v, 415148) == 6600644165;
    var p := 6600644165;
    assert p / 0x2000 == 805742;
    assert c.p9 * (p / 0x2000) * (p / 0x2000) == 3895321023384000;
    assert c.p8 * p == -96369404809000;
    assert PressQ248(c, v, 415148) == 25519233;
  }

  // --------------------------------------------------------------------- device

  class Bmp280 {
    var cal: Calibration
    /** The fine temperature left by the last temperature compensation. */
    var tFine: int
    /** The cached raw temperature. */
    var adcT: int
    /** The byte strings written to the bus so far. */
    var written: seq<seq<byte>>

    predicate Valid()
      reads this
    {
      CalibrationWidths(cal) && InInt32(tFine)
    }

    /** The constructor once the id register has been read: ReadCalibration and Configure. */
    constructor (calib: seq<byte>)
      requires |calib| == 24
      ensures Valid()
      ensures cal == DecodeCalibration(calib) && tFine == 0 && adcT == 0
      ensures written == OPEN_SEQUENCE
    {
      tFine := 0;
      adcT := 0;
      written := [[REG_ID], [REG_CALIB]];
      cal := DecodeCalibration(calib);
      new;
      Configure();
    }

    /**
     * The constructor with the id register's value `id` and the calibration
     * block `calib`: a wrong id throws, modelled as no device.
     */
    static method Open(id: byte, calib: seq<byte>) returns (dev: Bmp280?)
      requires |calib| == 24
      ensures (dev == null) <==> id != CHIP_ID
      ensures dev != null ==> fresh(dev) && dev.Valid() && dev.cal == DecodeCalibration(calib)
      ensures dev != null ==> dev.tFine == 0 && dev.adcT == 0 && dev.written == OPEN_SEQUENCE
    {
      if id != CHIP_ID {
        return null;
      }
      dev := new Bmp280(calib);
    }

    method Configure()
      modifies this`written
      ensures written == old(written) + [[REG_CTRL_MEAS, CTRL_MEAS_NORMAL], [REG_CONFIG, CONFIG_DEFAULT]]
    {
      written := written + [[REG_CTRL_MEAS, CTRL_MEAS_NORMAL]];
      written := written + [[REG_CONFIG, CONFIG_DEFAULT]];
    }

    /** ReadRawTemperature, with `data` the three bytes at 0xFA: the reading is also cached. */
    method ReadRawTemperature(data: seq<byte>) returns (adc: int)
      requires |data| == 3
      modifies this`written, this`adcT
      ensures adc == adcT == RawReading(data)
      ensures written == old(written) + [[REG_TEMP_MSB]]
    {
      written := written + [[REG_TEMP_MSB]];
      adcT := RawReading(data);
      adc := adcT;
    }

    /** ReadRawPressure, with `data` the three bytes at 0xF7. */
    method ReadRawPressure(data: seq<byte>) returns (adc: int)
      requires |data| == 3
      modifies this`written
      ensures adc == RawReading(data)
      ensures written == old(written) + [[REG_PRESS_MSB]]
    {
      written := written + [[REG_PRESS_MSB]];
      adc := RawReading(data);
    }

    method CompensateTemperature(adc: int) returns (centi: int)
      requires Valid() && TemperatureDefined(cal, adc)
      modifies this`tFine
      ensures Valid()
      ensures tFine == TFine(cal, adc) && centi == CentiCelsius(tFine)
    {
      tFine := TFine(cal, adc);
      centi := CentiCelsius(tFine);
    }

    /** ReadTemperature: degrees Celsius with a resolution of 0.01. */
    method ReadTemperature(data: seq<byte>) returns (celsius: real)
      requires Valid() && |data| == 3 && TemperatureDefined(cal, RawReading(data))
      modifies this`written, this`adcT, this`tFine
      ensures Valid()
      ensures adcT == RawReading(data) && tFine == TFine(cal, adcT)
      ensures celsius == CentiCelsius(tFine) as real / 100.0
      ensures written == old(written) + [[REG_TEMP_MSB]]
    {
      var adc := ReadRawTemperature(data);
      var centi := CompensateTemperature(adc);
      celsius := centi as real / 100.0;
    }

    /**
     * ReadPressure, with `pdata` and `tdata` the bytes at 0xF7 and 0xFA:
     * the temperature is read again so that t_fine is current.
     */
    method ReadPressure(pdata: seq<byte>, tdata: seq<byte>) returns (pascal: real)
      requires Valid() && |pdata| == 3 && |tdata| == 3
      requires TemperatureDefined(cal, RawReading(tdata))
      requires PressureDefined(cal, TFine(cal, RawReading(tdata)), RawReading(pdata))
      modifies this`written, this`adcT, this`tFine
      ensures Valid()
      ensures adcT == RawReading(tdata) && tFine == TFine(cal, adcT)
      ensures pascal == CompensatePressure(cal, tFine, RawReading(pdata)) as real / 256.0
      ensures written == old(written) + [[REG_PRESS_MSB], [REG_TEMP_MSB]]
    {
      var adcP := ReadRawPressure(pdata);
      var adc := ReadRawTemperature(tdata);
      var _ := CompensateTemperature(adcT);
      pascal := CompensatePressure(cal, tFine, adcP) as real / 256.0;
    }
  }
}
