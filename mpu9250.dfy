/**
 * The MPU-9250 inertial sensor driver (src/device/mpu9250.hpp): the
 * WHO_AM_I check and register set-up, the decoding of the 14-byte burst
 * from ACCEL_XOUT_H (registers 0x3B to 0x48 of the InvenSense MPU-9250
 * register map), the gyroscope bias and delta, the validation of a stored
 * calibration, and one iteration of the bias calibration loop. The SPI bus
 * is modelled by the list of frames transmitted; the bytes received, the
 * calibration file and the clock are parameters. Floats are exact reals.
 */
module Mpu9250Driver {
  import opened Common
  import opened CycleValues

  const WHO_AM_I: byte := 0x75
  const PWR_MGMT_1: byte := 0x6B
  const PWR_MGMT_2: byte := 0x6C
  const CONFIG: byte := 0x1A
  const SMPLRT_DIV: byte := 0x19
  const GYRO_CONFIG: byte := 0x1B
  const ACCEL_CONFIG: byte := 0x1C
  const ACCEL_CONFIG_2: byte := 0x1D
  const ACCEL_XOUT_H: byte := 0x3B
  const GYRO_XOUT_H: byte := 0x43
  const USER_CTRL: byte := 0x6A
  const INT_PIN_CFG: byte := 0x37
  const I2C_MST_CTRL: byte := 0x24
  const I2C_MST_DELAY_CTRL: byte := 0x67
  const I2C_SLV0_CTRL: byte := 0x27
  const AK8963_CNTL1_REG: byte := 0x0A
  const AK8963_CNTL2_REG: byte := 0x0B
  const AK8963_CNTL2_SRST: byte := 0x01

  /** Bit 7 of the first byte of a frame marks a read. */
  const READ_FLAG: int := 0x80

  /** +-16 g over the signed 16-bit range, in m/s^2 per bit. */
  const ACCEL_SCALE: real := 16.0 / 32768.0 * 9.80665
  /** +-2000 degrees/s over the signed 16-bit range, in rad/s per bit. */
  const GYRO_SCALE: real := 2000.0 / 32768.0 * PI / 180.0
  const TEMP_SENSITIVITY: real := 333.87
  const TEMP_OFFSET: real := 21.0

  /** The size of the stored bias: three floats. */
  const CALIBRATION_FILE_SIZE: int := 12
  const NS_PER_SEC: int := 1_000_000_000

  /** The frame of SpiDevice::WriteRegister. */
  function WriteFrame(reg: byte, value: byte): seq<byte>
  {
    [reg, value]
  }

  /** The frame of SpiDevice::ReadRegisters: the register with the read flag, then `n` dummy bytes. */
  function ReadFrame(reg: byte, n: nat): (f: seq<byte>)
    requires reg < READ_FLAG
    ensures |f| == n + 1 && f[0] == reg + READ_FLAG
  {
    [reg + READ_FLAG] + seq(n, _ => 0)
  }

  /** The WHO_AM_I values Initialize accepts: MPU-9250, MPU-6050 and MPU-6500 variants. */
  predicate Recognized(id: byte)
  {
    id == 0x71 || id == 0x68 || id == 0x70
  }

  /** Initialize's frames up to the WHO_AM_I check: the reset, then the read of WHO_AM_I. */
  const PROBE_FRAMES: seq<seq<byte>> := [WriteFrame(PWR_MGMT_1, 0x80), ReadFrame(WHO_AM_I, 1)]

  /** Initialize's frames after a successful check, in order. */
  const SETUP_FRAMES: seq<seq<byte>> := [
    WriteFrame(PWR_MGMT_1, 0x03), WriteFrame(PWR_MGMT_2, 0x00), WriteFrame(INT_PIN_CFG, 0x30),
    WriteFrame(I2C_MST_CTRL, 0x4D), WriteFrame(USER_CTRL, 0x20), WriteFrame(I2C_MST_DELAY_CTRL, 0x01),
    WriteFrame(I2C_SLV0_CTRL, 0x81), WriteFrame(CONFIG, 3), WriteFrame(SMPLRT_DIV, 0x01),
    WriteFrame(GYRO_CONFIG, 0x18), WriteFrame(ACCEL_CONFIG, 0x18), WriteFrame(ACCEL_CONFIG_2, 0x00),
    WriteFrame(AK8963_CNTL2_REG, AK8963_CNTL2_SRST), WriteFrame(AK8963_CNTL1_REG, 0x12)]

  /** The set-up selects the +-2000 degrees/s and +-16 g ranges the scale factors assume. */
  lemma SetupSelectsFullScale()
    ensures WriteFrame(GYRO_CONFIG, 0x18) in SETUP_FRAMES && WriteFrame(ACCEL_CONFIG, 0x18) in SETUP_FRAMES
  {
    assert SETUP_FRAMES[9] == WriteFrame(GYRO_CONFIG, 0x18);
    assert SETUP_FRAMES[10] == WriteFrame(ACCEL_CONFIG, 0x18);
  }

  // --------------------------------------------------------------------- burst

  /** The seven signed words of a burst: accelerometer, temperature, gyroscope. */
  datatype Burst = Burst(ax: int, ay: int, az: int, temp: int, gx: int, gy: int, gz: int)

  predicate BurstWidths(b: Burst)
  {
    InInt16(b.ax) && InInt16(b.ay) && InInt16(b.az) && InInt16(b.temp)
    && InInt16(b.gx) && InInt16(b.gy) && InInt16(b.gz)
  }

  /** A byte string read as consecutive big-endian 16-bit words. */
  function BigEndianWords(data: seq<byte>): (ws: seq<int>)
    requires |data| % 2 == 0
    ensures |ws| == |data| / 2
    ensures forall k :: 0 <= k < |ws| ==> ws[k] == Word(data[2 * k], data[2 * k + 1])
    decreases |data|
  {
    if data == [] then [] else [Word(data[0], data[1])] + BigEndianWords(data[2..])
  }

  /** 16-bit patterns as bytes, each high byte first. */
  function BigEndianBytes(ws: seq<int>): (data: seq<byte>)
    requires forall k :: 0 <= k < |ws| ==> 0 <= ws[k] < 0x1_0000
    ensures |data| == 2 * |ws|
  {
    if ws == [] then [] else [ws[0] / 0x100, ws[0] % 0x100] + BigEndianBytes(ws[1..])
  }

  lemma {:induction false} WordsRoundTrip(ws: seq<int>)
    requires forall k :: 0 <= k < |ws| ==> 0 <= ws[k] < 0x1_0000
    ensures BigEndianWords(BigEndianBytes(ws)) == ws
  {
    if ws != [] {
      WordsRoundTrip(ws[1..]);
      assert BigEndianBytes(ws)[2..] == BigEndianBytes(ws[1..]);
    }
  }

  lemma {:induction false} BytesRoundTrip(data: seq<byte>)
    requires |data| % 2 == 0
    ensures BigEndianBytes(BigEndianWords(data)) == data
    decreases |data|
  {
    if data != [] {
      BytesRoundTrip(data[2..]);
      assert BigEndianWords(data)[1..] == BigEndianWords(data[2..]);
      assert data == [data[0], data[1]] + data[2..];
    }
  }

  /** ReadData's decoding: bytes 0-5 accelerometer, 6-7 temperature, 8-13 gyroscope, each two's complement. */
  function DecodeBurst(data: seq<byte>): (b: Burst)
    requires |data| == 14
    ensures BurstWidths(b)
  {
    var ws := BigEndianWords(data);
    Burst(ToInt16(ws[0]), ToInt16(ws[1]), ToInt16(ws[2]), ToInt16(ws[3]),
          ToInt16(ws[4]), ToInt16(ws[5]), ToInt16(ws[6]))
  }

  /** The burst a sensor holding the readings `b` sends. */
  function EncodeBurst(b: Burst): (data: seq<byte>)
    requires BurstWidths(b)
    ensures |data| == 14
  {
    BigEndianBytes([FromInt16(b.ax), FromInt16(b.ay), FromInt16(b.az), FromInt16(b.temp),
                    FromInt16(b.gx), FromInt16(b.gy), FromInt16(b.gz)])
  }

  /** Decoding recovers every signed reading. */
  lemma BurstRoundTrip(b: Burst)
    requires BurstWidths(b)
    ensures DecodeBurst(EncodeBurst(b)) == b
  {
    WordsRoundTrip([FromInt16(b.ax), FromInt16(b.ay), FromInt16(b.az), FromInt16(b.temp),
                    FromInt16(b.gx), FromInt16(b.gy), FromInt16(b.gz)]);
    Int16RoundTrip(b.ax, 0); Int16RoundTrip(b.ay, 0); Int16RoundTrip(b.az, 0);
    Int16RoundTrip(b.temp, 0);
    Int16RoundTrip(b.gx, 0); Int16RoundTrip(b.gy, 0); Int16RoundTrip(b.gz, 0);
  }

  /** Every one of the 14 bytes is part of a reading. */
  lemma BurstBytesRoundTrip(data: seq<byte>)
    requires |data| == 14
    ensures EncodeBurst(DecodeBurst(data)) == data
  {
    var ws := BigEndianWords(data);
    var b := DecodeBurst(data);
    var ws' := [FromInt16(b.ax), FromInt16(b.ay), FromInt16(b.az), FromInt16(b.temp),
                FromInt16(b.gx), FromInt16(b.gy), FromInt16(b.gz)];
    forall k | 0 <= k < 7
      ensures ws'[k] == ws[k]
    {
      Int16RoundTrip(0, ws[k]);
    }
    assert ws' == ws;
    BytesRoundTrip(data);
  }

  // ------------------------------------------------------------------ readings

  /** An accelerometer reading in m/s^2, within the +-16 g range. */
  function Acceleration(raw: int): (a: real)
    requires InInt16(raw)
    ensures -16.0 * 9.80665 <= a < 16.0 * 9.80665
  {
    raw as real * ACCEL_SCALE
  }

  /** A gyroscope reading in rad/s before the bias, within +-2000 degrees/s. */
  function AngularRate(raw: int): (w: real)
    requires InInt16(raw)
    ensures -2000.0 * PI / 180.0 <= w < 2000.0 * PI / 180.0
  {
    raw as real * GYRO_SCALE
  }

  /** The die temperature in degrees Celsius. */
  function DieTemperature(raw: int): (t: real)
    requires InInt16(raw)
    ensures -32768.0 / TEMP_SENSITIVITY + TEMP_OFFSET <= t < 32768.0 / TEMP_SENSITIVITY + TEMP_OFFSET
  {
    raw as real / TEMP_SENSITIVITY + TEMP_OFFSET
  }

  function Plus(a: Vector3, b: Vector3): Vector3
  {
    Vector3(a.x + b.x, a.y + b.y, a.z + b.z)
  }

  function Minus(a: Vector3, b: Vector3): Vector3
  {
    Vector3(a.x - b.x, a.y - b.y, a.z - b.z)
  }

  function Accel(b: Burst): Vector3
    requires BurstWidths(b)
  {
    Vector3(Acceleration(b.ax), Acceleration(b.ay), Acceleration(b.az))
  }

  /** The gyroscope vector of a burst, each axis less its bias component. */
  function Gyro(b: Burst, bias: Vector3): (g: Vector3)
    requires BurstWidths(b)
    ensures Plus(g, bias) == Vector3(AngularRate(b.gx), AngularRate(b.gy), AngularRate(b.gz))
  {
    Minus(Vector3(AngularRate(b.gx), AngularRate(b.gy), AngularRate(b.gz)), bias)
  }

  /** A bias change shifts the corrected reading by exactly the opposite amount. */
  lemma GyroBiasShift(b: Burst, bias: Vector3, delta: Vector3)
    requires BurstWidths(b)
    ensures Gyro(b, Plus(bias, delta)) == Minus(Gyro(b, bias), delta)
  {
  }

  // --------------------------------------------------------------- calibration

  function RAbs(x: real): real
  {
    if x < 0.0 then -x else x
  }

  /** The contents of cali_data.bin: no file, or its size and the three floats it holds. */
  datatype CalibrationFile = NoFile | File(size: int, stored: Vector3, finite: bool)

  /** A stored bias is plausible when every component is at most 1 in magnitude. */
  predicate PlausibleBias(b: Vector3)
  {
    RAbs(b.x) <= 1.0 && RAbs(b.y) <= 1.0 && RAbs(b.z) <= 1.0
  }

  /** LoadCalibrationData: the bias after loading `f` over `bias`. */
  function LoadedBias(bias: Vector3, f: CalibrationFile): (r: Vector3)
  {
    match f
    case NoFile => bias
    case File(size, stored, finite) =>
      if size != CALIBRATION_FILE_SIZE then Vector3(0.0, 0.0, 0.0)
      else if !PlausibleBias(stored) || !finite then Vector3(0.0, 0.0, 0.0)
      else stored
  }

  /** A file present leaves a plausible bias: the stored one when it is valid, otherwise zero. */
  lemma LoadedBiasMeaning(bias: Vector3, f: CalibrationFile)
    ensures f.NoFile? ==> LoadedBias(bias, f) == bias
    ensures f.File? ==> PlausibleBias(LoadedBias(bias, f))
    ensures f.File? && f.size == CALIBRATION_FILE_SIZE && f.finite && PlausibleBias(f.stored) ==> LoadedBias(bias, f) == f.stored
    ensures f.File? && (f.size != CALIBRATION_FILE_SIZE || !f.finite || !PlausibleBias(f.stored)) ==> LoadedBias(bias, f) == Vector3(0.0, 0.0, 0.0)
  {
  }

  /** Saving a plausible bias and loading it again gives it back; an implausible one comes back as zero. */
  lemma SaveLoadRoundTrip(bias: Vector3, saved: Vector3)
    ensures PlausibleBias(saved) ==> LoadedBias(bias, File(CALIBRATION_FILE_SIZE, saved, true)) == saved
    ensures !PlausibleBias(saved) ==> LoadedBias(bias, File(CALIBRATION_FILE_SIZE, saved, true)) == Vector3(0.0, 0.0, 0.0)
  {
  }

  /** The gyroscope moved between two reads: the calibration restarts. */
  predicate Unsteady(delta: Vector3)
  {
    RAbs(delta.x) > 0.005 || RAbs(delta.y) > 0.005 || RAbs(delta.z) > 0.01
  }

  /** The averaged offset warrants a correction when some axis exceeds 0.005 rad/s. */
  predicate NeedsCorrection(avg: Vector3)
  {
    RAbs(avg.x) > 0.005 || RAbs(avg.y) > 0.005 || RAbs(avg.z) > 0.005
  }

  /** The state the calibration loop carries. */
  datatype Calibrating = Calibrating(counter: nat, sum: Vector3, done: bool, bias: Vector3, saved: seq<Vector3>)

  /**
   * One iteration of the calibration loop, `elapsed` nanoseconds after it
   * started, seeing `gyro` and `delta`; the flag says whether it restarts.
   * Samples are summed between 5 and 30 seconds; after 35 seconds the mean
   * is added to the bias and saved if it is large enough. With no sample
   * the mean is 0/0, which no comparison accepts.
   */
  function Tick(s: Calibrating, elapsed: int, gyro: Vector3, delta: Vector3): (r: (Calibrating, bool))
  {
    if s.done then (s, false)
    else if Unsteady(delta) then (s.(counter := 0, sum := Vector3(0.0, 0.0, 0.0)), true)
    else
      var sampling := 5 * NS_PER_SEC < elapsed < 30 * NS_PER_SEC;
      var counter := if sampling then s.counter + 1 else s.counter;
      var sum := if sampling then Plus(s.sum, gyro) else s.sum;
      if elapsed > 35 * NS_PER_SEC then
        var avg := if counter == 0 then Vector3(0.0, 0.0, 0.0)
                   else Vector3(sum.x / counter as real, sum.y / counter as real, sum.z / counter as real);
        if counter > 0 && NeedsCorrection(avg) then
          (Calibrating(counter, sum, true, Plus(s.bias, avg), s.saved + [Plus(s.bias, avg)]), false)
        else (Calibrating(counter, sum, true, s.bias, s.saved), false)
      else (Calibrating(counter, sum, false, s.bias, s.saved), false)
  }

  /**
   * The calibration is applied at most once: a finished calibration never
   * changes again, the bias changes only at the finishing tick, and every
   * save records the new bias.
   */
  lemma TickMeaning(s: Calibrating, elapsed: int, gyro: Vector3, delta: Vector3)
    ensures var (t, restart) := Tick(s, elapsed, gyro, delta);
      && (s.done ==> t == s && !restart)
      && (restart <==> !s.done && Unsteady(delta))
      && (restart ==> t.counter == 0 && t.bias == s.bias && t.saved == s.saved)
      && (t.done <==> s.done || (!Unsteady(delta) && elapsed > 35 * NS_PER_SEC))
      && (t.bias != s.bias ==> !s.done && t.done && t.saved == s.saved + [t.bias])
      && (t.saved != s.saved ==> t.saved == s.saved + [t.bias])
      && (!s.done && !restart && 5 * NS_PER_SEC < elapsed < 30 * NS_PER_SEC ==>
            t.counter == s.counter + 1 && t.sum == Plus(s.sum, gyro))
  {
  }

  /** A correction is the mean offset of the samples taken: the bias moves by exactly that mean. */
  lemma TickCorrection(s: Calibrating, elapsed: int, gyro: Vector3, delta: Vector3)
    requires !s.done && !Unsteady(delta) && elapsed > 35 * NS_PER_SEC && s.counter > 0
    requires var avg := Vector3(s.sum.x / s.counter as real, s.sum.y / s.counter as real, s.sum.z / s.counter as real);
      NeedsCorrection(avg)
    ensures Minus(Tick(s, elapsed, gyro, delta).0.bias, s.bias)
      == Vector3(s.sum.x / s.counter as real, s.sum.y / s.counter as real, s.sum.z / s.counter as real)
  {
  }

  // --------------------------------------------------------------------- device

  class Mpu9250 {
    var accel: Vector3
    var gyro: Vector3
    var gyroDelta: Vector3
    var gyroBias: Vector3
    var temperature: real
    /** The calibration loop's counter, offset sums and cali_done flag. */
    var counter: nat
    var offsetSum: Vector3
    var calibrated: bool
    /** Every bias written to cali_data.bin. */
    var saved: seq<Vector3>
    /** The SPI frames transmitted so far. */
    var sent: seq<seq<byte>>

    function CalibrationState(): Calibrating
      reads this
    {
      Calibrating(counter, offsetSum, calibrated, gyroBias, saved)
    }

    /** The constructor once Initialize has passed: LoadCalibrationData with the file `f`. */
    constructor (f: CalibrationFile)
      ensures accel == gyro == gyroDelta == Vector3(0.0, 0.0, 0.0) && temperature == 0.0
      ensures gyroBias == LoadedBias(Vector3(0.0, 0.0, 0.0), f)
      ensures counter == 0 && offsetSum == Vector3(0.0, 0.0, 0.0) && !calibrated && saved == []
      ensures sent == PROBE_FRAMES + SETUP_FRAMES
    {
      accel, gyro, gyroDelta := Vector3(0.0, 0.0, 0.0), Vector3(0.0, 0.0, 0.0), Vector3(0.0, 0.0, 0.0);
      gyroBias := Vector3(0.0, 0.0, 0.0);
      temperature := 0.0;
      counter, offsetSum, calibrated, saved := 0, Vector3(0.0, 0.0, 0.0), false, [];
      sent := PROBE_FRAMES + SETUP_FRAMES;
      new;
      LoadCalibrationData(f);
    }

    /**
     * The constructor with `id` the WHO_AM_I value read back: an
     * unrecognised device throws, modelled as no device.
     */
    static method Open(id: byte, f: CalibrationFile) returns (dev: Mpu9250?)
      ensures (dev == null) <==> !Recognized(id)
      ensures dev != null ==> fresh(dev) && dev.sent == PROBE_FRAMES + SETUP_FRAMES
      ensures dev != null ==> dev.gyroBias == LoadedBias(Vector3(0.0, 0.0, 0.0), f) && !dev.calibrated
    {
      if !Recognized(id) {
        return null;
      }
      dev := new Mpu9250(f);
    }

    method LoadCalibrationData(f: CalibrationFile)
      modifies this`gyroBias
      ensures gyroBias == LoadedBias(old(gyroBias), f)
    {
      match f
      case NoFile =>
        return;
      case File(size, stored, finite) =>
        if size != CALIBRATION_FILE_SIZE {
          gyroBias := Vector3(0.0, 0.0, 0.0);
          return;
        }
        gyroBias := stored;
        if RAbs(gyroBias.x) > 1.0 || RAbs(gyroBias.y) > 1.0 || RAbs(gyroBias.z) > 1.0 || !finite {
          gyroBias := Vector3(0.0, 0.0, 0.0);
        }
    }

    /** ReadData, with `data` the 14 bytes received. */
    method ReadData(data: seq<byte>)
      requires |data| == 14
      modifies this`accel, this`gyro, this`gyroDelta, this`temperature, this`sent
      ensures var b := DecodeBurst(data);
        && accel == Accel(b) && temperature == DieTemperature(b.temp)
        && gyro == Gyro(b, gyroBias) && gyroDelta == Minus(gyro, old(gyro))
      ensures sent == old(sent) + [ReadFrame(ACCEL_XOUT_H, 14)]
    {
      sent := sent + [ReadFrame(ACCEL_XOUT_H, 14)];
      var b := DecodeBurst(data);
      accel := Vector3(Acceleration(b.ax), Acceleration(b.ay), Acceleration(b.az));
      temperature := b.temp as real / TEMP_SENSITIVITY + TEMP_OFFSET;
      var g := Vector3(AngularRate(b.gx) - gyroBias.x, AngularRate(b.gy) - gyroBias.y, AngularRate(b.gz) - gyroBias.z);
      gyroDelta := Vector3(g.x - gyro.x, g.y - gyro.y, g.z - gyro.z);
      gyro := g;
    }

    /**
     * One iteration of CalibrateThreadTask's inner loop, `elapsed`
     * nanoseconds after its start time; `restart` is the break that makes
     * the outer loop start over.
     */
    method CalibrationTick(elapsed: int) returns (restart: bool)
      modifies this`counter, this`offsetSum, this`calibrated, this`gyroBias, this`saved
      ensures (CalibrationState(), restart) == Tick(old(CalibrationState()), elapsed, gyro, gyroDelta)
    {
      restart := false;
      if calibrated {
        return;
      }
      if RAbs(gyroDelta.x) > 0.005 || RAbs(gyroDelta.y) > 0.005 || RAbs(gyroDelta.z) > 0.01 {
        counter, offsetSum := 0, Vector3(0.0, 0.0, 0.0);
        restart := true;
        return;
      }
      if 5 * NS_PER_SEC < elapsed < 30 * NS_PER_SEC {
        counter := counter + 1;
        offsetSum := Vector3(offsetSum.x + gyro.x, offsetSum.y + gyro.y, offsetSum.z + gyro.z);
      }
      if elapsed > 35 * NS_PER_SEC {
        if counter > 0 {
          var avg := Vector3(offsetSum.x / counter as real, offsetSum.y / counter as real, offsetSum.z / counter as real);
          if RAbs(avg.x) > 0.005 || RAbs(avg.y) > 0.005 || RAbs(avg.z) > 0.005 {
            gyroBias := Vector3(gyroBias.x + avg.x, gyroBias.y + avg.y, gyroBias.z + avg.z);
            saved := saved + [gyroBias];
          }
        }
        calibrated := true;
      }
    }
  }
}
