/**
 * The ADS1115 analog-to-digital converter driver (src/device/ads1115.hpp):
 * round-robin scanning of single-ended channels driven by the ALERT/RDY
 * interrupt, the config register word it writes, and the conversion of a
 * reading to volts. Config register layout as in section 9.6.3 of the TI
 * ADS1115 datasheet (SBAS444D). The I2C bus is modelled by the list of byte strings written to
 * it, the bytes read back are parameters, and each user callback by the
 * record of the (channel, voltage) pairs it received.
 */
module Ads1115Driver {
  import opened Common

  const DEFAULT_I2C_ADDRESS: byte := 0x48
  const POINTER_CONVERSION: byte := 0x00
  const POINTER_CONFIG: byte := 0x01

  /** 125 microvolts per bit at the +-4.096 V gain. */
  const VOLTS_PER_BIT: real := 0.000125

  /** EnableReadyInterruptMode: Lo_thresh 0x0000 and Hi_thresh 0x8000 turn ALERT into a ready signal. */
  const THRESHOLD_WRITES: seq<seq<byte>> := [[0x02, 0x00, 0x00], [0x03, 0x80, 0x00]]

  /** ReadConversion's writes: the pointer byte, then the register pointer of the two-byte read. */
  const CONVERSION_READ: seq<seq<byte>> := [[POINTER_CONVERSION], [POINTER_CONVERSION]]

  /** The config register for single-ended input `channel` against ground. */
  function ConfigWord(channel: int): (w: int)
    requires 0 <= channel <= 3
    ensures 0 <= w < 0x8000
    ensures (w / 0x1000) % 8 == 4 + channel
    ensures (w / 0x200) % 8 == 1
    ensures (w / 0x100) % 2 == 0
    ensures (w / 0x20) % 8 == 7
    ensures w % 0x20 == 0
  {
    (4 + channel) * 0x1000 + 1 * 0x200 + 0 * 0x100 + 7 * 0x20
  }

  /** The config words of distinct channels differ. */
  lemma ConfigWordsDistinct(c1: int, c2: int)
    requires 0 <= c1 <= 3 && 0 <= c2 <= 3 && c1 != c2
    ensures ConfigWord(c1) != ConfigWord(c2)
  {
    assert (ConfigWord(c1) / 0x1000) % 8 != (ConfigWord(c2) / 0x1000) % 8;
  }

  /** The three bytes ConfigureChannel writes: the config pointer, then the word high byte first. */
  function ConfigFrame(channel: int): (f: seq<byte>)
    requires 0 <= channel <= 3
    ensures |f| == 3 && f[0] == POINTER_CONFIG && Word(f[1], f[2]) == ConfigWord(channel)
  {
    [POINTER_CONFIG, ConfigWord(channel) / 0x100, ConfigWord(channel) % 0x100]
  }

  /** Everything ConfigureChannel writes: nothing for a channel outside 0..3. */
  function ConfigureWrites(channel: int): (w: seq<seq<byte>>)
    ensures (0 <= channel <= 3) == (w != [])
  {
    if 0 <= channel <= 3 then [ConfigFrame(channel)] + CONVERSION_READ else []
  }

  /** ReadConversion's result: the two bytes, high first, as a signed 16-bit value. */
  function Conversion(hi: byte, lo: byte): (raw: int)
    ensures InInt16(raw)
  {
    ToInt16(Word(hi, lo))
  }

  /** Every signed 16-bit reading is carried by exactly the bytes of its two's complement pattern. */
  lemma ConversionRoundTrip(raw: int)
    requires InInt16(raw)
    ensures Conversion(FromInt16(raw) / 0x100, FromInt16(raw) % 0x100) == raw
  {
    Int16RoundTrip(raw, 0);
  }

  /** A reading in volts: within the +-4.096 V range the gain selects, with the sign of the reading. */
  function Voltage(raw: int): (v: real)
    requires InInt16(raw)
    ensures -4.096 <= v < 4.096
    ensures (v < 0.0) == (raw < 0) && (v == 0.0) == (raw == 0)
  {
    raw as real * VOLTS_PER_BIT
  }

  /** The channel converted after `k` ready events of a scan started at channel 0. */
  function ChannelAfter(k: nat, n: nat): (c: int)
    requires n > 0
  {
    if k == 0 then 0 else (ChannelAfter(k - 1, n) + 1) % n
  }

  /** The scan visits the channels in order, round robin. */
  lemma {:induction false} ScanOrder(k: nat, n: nat)
    requires n > 0
    ensures ChannelAfter(k, n) == k % n
  {
    if k > 0 {
      ScanOrder(k - 1, n);
      ModAddLeft(k - 1, 1, n);
    }
  }

  class Ads1115 {
    /** CHANNEL_NUM, the template parameter. */
    const channelNum: nat
    /** voltages_: the latest reading of each channel. */
    const voltages: array<real>
    var scanning: bool
    var current: int
    /** Which channels have a callback. */
    var registered: seq<bool>
    /** Every callback invocation so far, as (channel, voltage). */
    var delivered: seq<(int, real)>
    /** Whether the data-ready interrupt has been enabled. */
    var interruptEnabled: bool
    /** The byte strings written to the bus so far. */
    var written: seq<seq<byte>>

    predicate Valid()
      reads this
    {
      channelNum > 0 && voltages.Length == channelNum && |registered| == channelNum && 0 <= current < channelNum
    }

    /** The constructor: EnableReadyInterruptMode, then StartScan. */
    constructor (channelNum: nat)
      requires channelNum > 0
      ensures Valid() && fresh(voltages) && this.channelNum == channelNum
      ensures voltages[..] == seq(channelNum, _ => 0.0) && registered == seq(channelNum, _ => false)
      ensures scanning && current == 0 && interruptEnabled && delivered == []
      ensures written == THRESHOLD_WRITES + ConfigureWrites(0)
    {
      this.channelNum := channelNum;
      voltages := new real[channelNum](_ => 0.0);
      scanning := false;
      current := 0;
      registered := seq(channelNum, _ => false);
      delivered := [];
      interruptEnabled := false;
      written := [];
      new;
      EnableReadyInterruptMode();
      StartScan();
    }

    method EnableReadyInterruptMode()
      modifies this`written
      ensures written == old(written) + THRESHOLD_WRITES
    {
      written := written + [[0x02, 0x00, 0x00]];
      written := written + [[0x03, 0x80, 0x00]];
    }

    method StartScan()
      requires Valid()
      modifies this`scanning, this`current, this`written, this`interruptEnabled
      ensures Valid() && scanning && current == 0 && interruptEnabled
      ensures written == old(written) + ConfigureWrites(0)
    {
      scanning := true;
      current := 0;
      ConfigureChannel(current);
      interruptEnabled := true;
    }

    method Stop()
      modifies this`scanning
      ensures !scanning
    {
      scanning := false;
    }

    /** GetVoltage: the latest reading of `channel`, 0 for a channel that does not exist. */
    function GetVoltage(channel: int): (v: real)
      requires Valid()
      reads this, voltages
      ensures 0 <= channel < channelNum ==> v == voltages[channel]
      ensures !(0 <= channel < channelNum) ==> v == 0.0
    {
      if channel < 0 || channel >= channelNum then 0.0 else voltages[channel]
    }

    /** RegisterChannelCallback: only a channel that exists gets the callback. */
    method RegisterChannelCallback(channel: int)
      requires Valid()
      modifies this`registered
      ensures Valid()
      ensures 0 <= channel < channelNum ==> registered == old(registered)[channel := true]
      ensures !(0 <= channel < channelNum) ==> registered == old(registered)
    {
      if channel >= 0 && channel < channelNum {
        registered := registered[channel := true];
      }
    }

    /** ReadConversion, with `hi` and `lo` the two bytes the converter answers. */
    method ReadConversion(hi: byte, lo: byte) returns (raw: int)
      modifies this`written
      ensures raw == Conversion(hi, lo)
      ensures written == old(written) + CONVERSION_READ
    {
      written := written + [[POINTER_CONVERSION]];
      written := written + [[POINTER_CONVERSION]];
      raw := Conversion(hi, lo);
    }

    /** ConfigureChannel: the config write, then one conversion read whose value is discarded. */
    method ConfigureChannel(channel: int)
      modifies this`written
      ensures written == old(written) + ConfigureWrites(channel)
    {
      if channel < 0 || channel > 3 {
        return;
      }
      written := written + [ConfigFrame(channel)];
      // The discarded reading's bytes play no part.
      var _ := ReadConversion(0, 0);
    }

    /**
     * OnDataReady, with `hi` and `lo` the conversion bytes: store the
     * current channel's voltage, hand it to that channel's callback, and
     * move the converter on to the next channel.
     */
    method OnDataReady(hi: byte, lo: byte)
      requires Valid()
      modifies voltages, this`current, this`written, this`delivered
      ensures Valid()
      ensures !old(scanning) ==>
        voltages[..] == old(voltages[..]) && current == old(current)
        && written == old(written) && delivered == old(delivered)
      ensures old(scanning) ==>
        var v := Voltage(Conversion(hi, lo));
        && voltages[..] == old(voltages[..])[old(current) := v]
        && delivered == old(delivered) + (if registered[old(current)] then [(old(current), v)] else [])
        && current == (old(current) + 1) % channelNum
        && written == old(written) + CONVERSION_READ + ConfigureWrites(current)
    {
      if !scanning {
        return;
      }
      var raw := ReadConversion(hi, lo);
      voltages[current] := Voltage(raw);
      if registered[current] {
        delivered := delivered + [(current, voltages[current])];
      }
      current := (current + 1) % channelNum;
      ConfigureChannel(current);
    }
  }
}
