/**
 * The sensor manager (src/controller/sensor_manager.hpp): the moving
 * average of the ambient-light readings that drives the display
 * brightness, the thermistor temperature it keeps, and the getters that
 * fall back to 0 when a sensor is absent. The conversions of a channel
 * voltage to lux (a power law) and to degrees (a logarithm) are float-only;
 * their results arrive as parameters.
 */
module Sensors {
  import opened Common
  import opened Gui
  import opened Aht20Driver
  import opened Bmp280Driver
  import opened Ads1115Driver
  import CycleValues

  /** The queue holds this many readings between callbacks; the average is over one more. */
  const LIGHT_WINDOW: nat := 50
  /** The brightness is pushed on every PUSH_PERIOD-th average. */
  const PUSH_PERIOD: nat := 6
  /** Above this many lux light / 20 + 1 no longer fits the uint8_t it is converted to. */
  const LUX_LIMIT: real := 5100.0

  function Sum(s: seq<real>): real
  {
    if s == [] then 0.0 else s[0] + Sum(s[1..])
  }

  lemma {:induction false} SumAppend(s: seq<real>, x: real)
    ensures Sum(s + [x]) == Sum(s) + x
  {
    if s != [] {
      assert (s + [x])[1..] == s[1..] + [x];
      SumAppend(s[1..], x);
    }
  }

  /** A sum of values no smaller than lo is at least |s| * lo. */
  lemma {:induction false} SumAtLeast(s: seq<real>, lo: real)
    requires forall i :: 0 <= i < |s| ==> lo <= s[i]
    ensures |s| as real * lo <= Sum(s)
  {
    if s != [] {
      SumAtLeast(s[1..], lo);
    }
  }

  /** A sum of values below hi is at most |s| * hi, strictly below when s is not empty. */
  lemma {:induction false} SumBelow(s: seq<real>, hi: real)
    requires forall i :: 0 <= i < |s| ==> s[i] < hi
    ensures Sum(s) <= |s| as real * hi
    ensures |s| > 0 ==> Sum(s) < |s| as real * hi
  {
    if s != [] {
      SumBelow(s[1..], hi);
    }
  }

  function Mean(s: seq<real>): real
    requires |s| > 0
  {
    Sum(s) / |s| as real
  }

  /** The mean of readings no smaller than lo is no smaller than lo. */
  lemma MeanAtLeast(s: seq<real>, lo: real)
    requires |s| > 0 && forall i :: 0 <= i < |s| ==> lo <= s[i]
    ensures lo <= Mean(s)
  {
    SumAtLeast(s, lo);
    var n := |s| as real;
    assert Mean(s) * n == Sum(s);
    if Mean(s) < lo {
      assert false;
    }
  }

  /**
   * The mean of readings in [lo, hi) is in [lo, hi): with every reading
   * below LUX_LIMIT the brightness cast is always defined.
   */
  lemma MeanBounds(s: seq<real>, lo: real, hi: real)
    requires |s| > 0 && forall i :: 0 <= i < |s| ==> lo <= s[i] < hi
    ensures lo <= Mean(s) < hi
  {
    MeanAtLeast(s, lo);
    SumBelow(s, hi);
    var n := |s| as real;
    assert Mean(s) * n == Sum(s);
    if Mean(s) >= hi {
      assert false;
    }
  }

  /** static_cast<uint8_t>(light / 20 + 1): the brightness level for a light level. */
  function Brightness(light: real): (b: int)
    requires 0.0 <= light < LUX_LIMIT
    ensures 1 <= b <= 255
    ensures b as real <= light / 20.0 + 1.0 < b as real + 1.0
  {
    CycleValues.Trunc(light / 20.0 + 1.0)
  }

  /** The callback's static counter after one more average. */
  function NextCounter(c: int): int
  {
    if c + 1 > PUSH_PERIOD - 1 then 0 else c + 1
  }

  /** The counter after `k` averages, starting from 0. */
  function CounterAfter(k: nat): int
  {
    if k == 0 then 0 else NextCounter(CounterAfter(k - 1))
  }

  /** The counter runs through 0..5 and starts over. */
  lemma {:induction false} CounterCycle(k: nat)
    ensures CounterAfter(k) == k % PUSH_PERIOD
  {
    if k > 0 {
      CounterCycle(k - 1);
    }
  }

  /** The brightness is pushed at the k-th average exactly when k is a multiple of six. */
  lemma PushEverySixth(k: nat)
    requires k >= 1
    ensures (CounterAfter(k - 1) + 1 > PUSH_PERIOD - 1) <==> k % PUSH_PERIOD == 0
  {
    CounterCycle(k - 1);
  }

  class SensorManager {
    var aht: Aht20?
    var bmp: Bmp280?
    var gui: CompGui?
    /** The thermistor temperature from ADC channel 0. */
    var temperature: real
    /** The averaged ambient light from ADC channel 1. */
    var light: real
    /** light_queue_, newest reading first. */
    var lightQueue: seq<real>
    /** The callback's static counter. */
    var counter: int

    predicate Valid()
      reads this
    {
      && |lightQueue| <= LIGHT_WINDOW && 0 <= counter < PUSH_PERIOD
      && (forall i :: 0 <= i < |lightQueue| ==> 0.0 <= lightQueue[i])
      && 0.0 <= light
    }

    constructor ()
      ensures Valid() && aht == null && bmp == null && gui == null
      ensures temperature == 0.0 && light == 0.0 && lightQueue == [] && counter == 0
    {
      aht, bmp, gui := null, null, null;
      temperature, light := 0.0, 0.0;
      lightQueue := [];
      counter := 0;
    }

    /** Init: keeps the sensors and the GUI and registers the callbacks of channels 0 and 1. */
    method Init(ads: Ads1115, aht: Aht20?, bmp: Bmp280?, gui: CompGui?)
      requires ads.Valid()
      modifies this`aht, this`bmp, this`gui, ads`registered
      ensures ads.Valid() && this.aht == aht && this.bmp == bmp && this.gui == gui
      ensures ads.channelNum >= 2 ==> ads.registered == old(ads.registered)[0 := true][1 := true]
      ensures ads.channelNum == 1 ==> ads.registered == old(ads.registered)[0 := true]
    {
      this.aht, this.bmp, this.gui := aht, bmp, gui;
      ads.RegisterChannelCallback(0);
      ads.RegisterChannelCallback(1);
    }

    /** The channel-0 callback, with `celsius` the thermistor temperature computed from its voltage. */
    method OnThermistor(celsius: real)
      modifies this`temperature
      ensures temperature == celsius
    {
      temperature := celsius;
    }

    /**
     * The channel-1 callback, with `lux` the light level computed from its
     * voltage: push the reading at the front; once the queue exceeds 50
     * readings, average all 51, push the brightness on every sixth
     * average, and drop the oldest reading. The brightness cast is defined
     * only below LUX_LIMIT, which is demanded of the average on the passes
     * that push it to a GUI and of nothing else.
     */
    method OnLight(lux: real)
      requires Valid() && 0.0 <= lux
      requires gui != null && |lightQueue| + 1 > LIGHT_WINDOW && counter + 1 > PUSH_PERIOD - 1 ==>
        Mean([lux] + lightQueue) < LUX_LIMIT
      requires gui != null ==> gui.Valid()
      modifies this`lightQueue, this`light, this`counter, if gui != null then {gui.display} else {}
      ensures Valid()
      ensures var q := [lux] + old(lightQueue);
        && (|q| <= LIGHT_WINDOW ==> lightQueue == q && light == old(light) && counter == old(counter))
        && (|q| > LIGHT_WINDOW ==>
              |q| == LIGHT_WINDOW + 1 && lightQueue == q[..LIGHT_WINDOW]
              && light == Mean(q) && counter == NextCounter(old(counter)))
      ensures gui != null ==> gui.Valid()
      ensures gui != null ==>
        var q := [lux] + old(lightQueue);
        gui.display.sent == old(gui.display.sent)
          + (if |q| > LIGHT_WINDOW && old(counter) + 1 > PUSH_PERIOD - 1
             then [LightCommand(Brightness(light) as bv8)] else [])
    {
      lightQueue := [lux] + lightQueue;
      if |lightQueue| > LIGHT_WINDOW {
        var total := QueueSum();
        MeanAtLeast(lightQueue, 0.0);
        light := total / |lightQueue| as real;
        CountAverage();
        lightQueue := lightQueue[..|lightQueue| - 1];
      }
    }

    /** The accumulation loop over the queue. */
    method QueueSum() returns (total: real)
      ensures total == Sum(lightQueue)
    {
      total := 0.0;
      var i := 0;
      while i < |lightQueue|
        invariant 0 <= i <= |lightQueue|
        invariant total == Sum(lightQueue[..i])
      {
        assert lightQueue[..i + 1] == lightQueue[..i] + [lightQueue[i]];
        SumAppend(lightQueue[..i], lightQueue[i]);
        total := total + lightQueue[i];
        i := i + 1;
      }
      assert lightQueue[..i] == lightQueue;
    }

    /** One more average: on every sixth the brightness goes to the GUI, if there is one. */
    method CountAverage()
      requires 0 <= counter < PUSH_PERIOD && 0.0 <= light
      requires gui != null && counter + 1 > PUSH_PERIOD - 1 ==> light < LUX_LIMIT
      requires gui != null ==> gui.Valid()
      modifies this`counter, if gui != null then {gui.display} else {}
      ensures counter == NextCounter(old(counter)) && 0 <= counter < PUSH_PERIOD
      ensures gui != null ==> gui.Valid()
      ensures gui != null ==>
        gui.display.sent == old(gui.display.sent)
          + (if old(counter) + 1 > PUSH_PERIOD - 1 then [LightCommand(Brightness(light) as bv8)] else [])
    {
      counter := counter + 1;
      if counter > PUSH_PERIOD - 1 {
        if gui != null {
          gui.SetLight(Brightness(light) as bv8);
        }
        counter := 0;
      }
    }

    function GetTemperature(): (t: real)
      reads this
      ensures t == temperature
    {
      temperature
    }

    function GetLight(): (l: real)
      reads this
      requires Valid()
      ensures 0.0 <= l
    {
      light
    }

    /** GetHumidity: the AHT20's humidity, 0 without one. */
    function GetHumidity(): (h: real)
      reads this, aht
      ensures aht == null ==> h == 0.0
      ensures aht != null ==> h == aht.humidity
    {
      if aht != null then aht.humidity else 0.0
    }

    /** GetCompensatedTemperature: the AHT20's temperature, 0 without one. */
    function GetCompensatedTemperature(): (t: real)
      reads this, aht
      ensures aht == null ==> t == 0.0
      ensures aht != null ==> t == aht.temperature
    {
      if aht != null then aht.temperature else 0.0
    }

    /** GetPressure: a fresh BMP280 reading in Pa, 0 without one; `pdata` and `tdata` are the bytes it answers. */
    method GetPressure(pdata: seq<byte>, tdata: seq<byte>) returns (pascal: real)
      requires |pdata| == 3 && |tdata| == 3
      requires bmp != null ==> bmp.Valid() && TemperatureDefined(bmp.cal, RawReading(tdata))
      requires bmp != null ==> PressureDefined(bmp.cal, TFine(bmp.cal, RawReading(tdata)), RawReading(pdata))
      modifies if bmp != null then {bmp} else {}
      ensures bmp == null ==> pascal == 0.0
      ensures bmp != null ==> bmp.cal == old(bmp.cal)
      ensures bmp != null ==> bmp.Valid() && bmp.tFine == TFine(bmp.cal, RawReading(tdata))
      ensures bmp != null ==> pascal == CompensatePressure(bmp.cal, bmp.tFine, RawReading(pdata)) as real / 256.0
    {
      if bmp == null {
        return 0.0;
      }
      pascal := bmp.ReadPressure(pdata, tdata);
    }
  }
}
