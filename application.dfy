/**
 * The application object (src/controller/fluxsand.hpp): the stopwatch and
 * timer callbacks it hands to the input and gesture handlers, and one pass
 * of its display loop `Run`. The wall clock (hour and minute), the steady
 * clock (`now`, in nanoseconds) and the sensor readings already converted to
 * the GUI's 8-bit values are parameters.
 */
module Application {
  import opened Common
  import opened ModeManagement
  import opened Gui
  import SandModel
  import CycleValues

  /** The stopwatch seconds shown: at most 99:59. */
  function StopwatchDisplay(s: int): (d: int)
    ensures d <= 100 * 60 - 1
    ensures s < 100 * 60 - 1 ==> d == s
    ensures s >= 100 * 60 - 1 ==> d == 100 * 60 - 1
  {
    if s >= 100 * 60 - 1 then 100 * 60 - 1 else s
  }

  /** The displayed value splits into whole minutes (at most 99) and seconds, which recombine to it. */
  lemma StopwatchDigits(s: int)
    requires s >= 0
    ensures var d := StopwatchDisplay(s);
      0 <= d / 60 <= 99 && 0 <= d % 60 < 60 && d / 60 * 60 + d % 60 == d
  {
  }

  /** a / b for naturals, by repeated subtraction. */
  function Quot(a: nat, b: nat): nat
    requires b > 0
  {
    if a < b then 0 else 1 + Quot(a - b, b)
  }

  /** Quot is the integer quotient: it leaves a remainder in [0, b). */
  lemma {:induction false} QuotBounds(a: nat, b: nat)
    requires b > 0
    ensures Quot(a, b) * b <= a < Quot(a, b) * b + b
  {
    if a >= b {
      QuotBounds(a - b, b);
      var q := Quot(a - b, b);
      assert (1 + q) * b == q * b + b;
    }
  }

  lemma {:induction false} QuotMonotone(a1: nat, a2: nat, b: nat)
    requires b > 0 && a1 <= a2
    ensures Quot(a1, b) <= Quot(a2, b)
  {
    if a1 >= b {
      QuotMonotone(a1 - b, a2 - b, b);
    }
  }

  lemma {:induction false} QuotMultiple(k: nat, b: nat)
    requires b > 0
    ensures Quot(k * b, b) == k
  {
    if k > 0 {
      assert k * b - b == (k - 1) * b;
      QuotMultiple(k - 1, b);
    }
  }

  /**
   * How many grains the lower half of the hourglass should hold: 128 less
   * the truncated share of the timer still remaining, kept within 0 and
   * 128. TargetCountFloat relates it to the source's floating-point
   * expression.
   */
  function TargetCount(remaining: nat, maxDuration: nat): int
    requires maxDuration > 0
  {
    Clamp(128 - Quot(128 * remaining, maxDuration), 0, 128)
  }

  /**
   * The count equals the truncated quotient 128 * remaining / max taken
   * over the reals, as the source writes it in single precision; the
   * rounding of single precision is not modelled (with both operands at
   * most 5939 it cannot move the quotient across a whole number).
   */
  lemma TargetCountFloat(remaining: nat, maxDuration: nat)
    requires maxDuration > 0
    ensures TargetCount(remaining, maxDuration)
      == Clamp(128 - CycleValues.Trunc(128.0 * remaining as real / maxDuration as real), 0, 128)
  {
    var a, b := 128 * remaining, maxDuration;
    QuotBounds(a, b);
    var q := Quot(a, b);
    CastProduct(q, b);
    DivBetween(a as real, b as real, q as real);
    TruncUnique(a as real / b as real, q);
  }

  lemma CastProduct(q: int, b: int)
    ensures (q * b) as real == q as real * b as real
  {
  }

  lemma DivBetween(a: real, b: real, q: real)
    requires b > 0.0 && q * b <= a < q * b + b
    ensures q <= a / b < q + 1.0
  {
    var x := a / b;
    assert x * b == a;
    assert (q + 1.0) * b == q * b + b;
    ScaleCancel(q, x, b);
    ScaleCancel(x, q + 1.0, b);
  }

  lemma ScaleCancel(u: real, v: real, b: real)
    requires b > 0.0
    ensures u * b <= v * b ==> u <= v
    ensures u * b < v * b ==> u < v
  {
    if u > v {
      assert (u - v) * b > 0.0;
    }
  }

  lemma TruncUnique(x: real, q: int)
    requires 0 <= q && q as real <= x < q as real + 1.0
    ensures CycleValues.Trunc(x) == q
  {
    var n := CycleValues.Trunc(x);
    assert n as real < q as real + 1.0 && q as real < n as real + 1.0;
  }

  /**
   * The hourglass empties as the timer runs down: for a remaining time
   * within the set maximum no clamping happens, a full timer asks for no
   * fallen grains, an expired one for all 128, and less time remaining
   * never asks for fewer.
   */
  lemma TargetCountProgress(r1: nat, r2: nat, maxDuration: nat)
    requires r1 <= r2 <= maxDuration && maxDuration > 0
    ensures TargetCount(r2, maxDuration) <= TargetCount(r1, maxDuration)
    ensures TargetCount(r1, maxDuration) == 128 - Quot(128 * r1, maxDuration)
    ensures TargetCount(maxDuration, maxDuration) == 0
    ensures TargetCount(0, maxDuration) == 128
  {
    QuotMonotone(128 * r1, 128 * r2, maxDuration);
    QuotMonotone(128 * r2, 128 * maxDuration, maxDuration);
    QuotMultiple(128, maxDuration);
  }

  /**
   * The buzzer test as written: evaluated after GetRemainingTimerSeconds,
   * whose state change is already in `activeAfter`.
   */
  predicate BuzzAsWritten(remaining: int, activeAfter: bool)
  {
    remaining == 0 && activeAfter
  }

  /** After GetRemainingTimerSeconds the written buzzer test never holds: the getter stops the timer whenever it reports zero. */
  lemma BuzzAsWrittenNever(active: bool, start: int, duration: int, now: int)
    requires 0 <= duration && start <= now
    ensures !BuzzAsWritten(RemainingSeconds(active, start, duration, now), active && !Expired(start, duration, now))
  {
    RemainingCountsDown(start, duration, now, now);
  }

  /** The evident intent: the buzzer sounds when the timer, running before the call, has now run out. */
  predicate Buzz(activeBefore: bool, start: int, duration: int, now: int)
  {
    activeBefore && Expired(start, duration, now)
  }

  /**
   * The corrected test sounds on the one pass at which a running timer runs
   * out, it then reports zero, and on any later pass (the timer now being
   * off) it stays silent.
   */
  lemma BuzzOnce(start: int, duration: int, t1: int, t2: int)
    requires 0 <= duration && start <= t1 <= t2
    ensures Buzz(true, start, duration, t1) ==> RemainingSeconds(true, start, duration, t1) == 0
    ensures Buzz(true, start, duration, t1) <==> !(true && !Expired(start, duration, t1))
    ensures !Buzz(true && !Expired(start, duration, t1), start, duration, t2) || !Expired(start, duration, t1)
    ensures RemainingSeconds(true, start, duration, start + duration * NS_PER_SEC) == 0
    ensures Buzz(true, start, duration, start + duration * NS_PER_SEC)
  {
    RemainingCountsDown(start, duration, t1, t2);
  }

  /** Lets one grain pass between the hourglass halves when the lower one holds fewer than `target` grains. */
  method DropGrain(up: SandModel.SandGrid, down: SandModel.SandGrid, target: int, angle: real)
    requires up.Valid() && down.Valid() && up.grid != down.grid
    modifies up.grid, down.grid
    ensures if target > SandModel.CountRows(old(down.Model()))
      then SandModel.Transferred(old(up.Model()), old(down.Model()), up.Model(), down.Model(), angle)
      else unchanged(up.grid, down.grid)
  {
    var count := down.Count();
    if target > count {
      var _ := SandModel.SandGrid.MoveSand(up, down, angle);
    }
  }

  class FluxSand {
    const mm: ModeManager
    const gui: CompGui

    ghost predicate Valid()
      reads this, mm, gui, gui.gridUp, gui.gridDown
    {
      mm.Valid() && gui.Valid()
    }

    /** The steady clock never reads earlier than a start time it has recorded. */
    ghost predicate ClockAfter(now: int)
      reads this, mm
    {
      mm.stopwatchStart <= now && mm.timerStart <= now
    }

    /** A fresh mode manager (clock mode, portrait, nothing running) beside the given GUI. */
    constructor (gui: CompGui)
      requires gui.Valid()
      ensures Valid() && this.gui == gui && fresh(mm)
      ensures mm.mode == Time && !mm.landscape && !mm.stopwatchRunning && !mm.timerActive
    {
      this.gui := gui;
      mm := new ModeManager();
    }

    method StartStopwatch(now: int)
      requires Valid()
      modifies mm`stopwatchStart, mm`stopwatchRunning, mm`mode
      ensures old(mm.stopwatchRunning) ==> unchanged(mm)
      ensures !old(mm.stopwatchRunning) ==> mm.stopwatchRunning && mm.stopwatchStart == now && mm.mode == Stopwatch
      ensures Valid()
    {
      mm.StartStopwatch(now);
    }

    method StopStopwatch()
      requires Valid()
      modifies mm`stopwatchRunning, mm`stopwatchElapsed
      ensures !mm.stopwatchRunning && mm.stopwatchElapsed == 0
      ensures Valid()
    {
      mm.StopStopwatch();
    }

    /** The stopwatch-toggle callback: stops a running stopwatch, starts a stopped one. */
    method ToggleStopwatch(now: int)
      requires Valid()
      modifies mm`stopwatchStart, mm`stopwatchRunning, mm`stopwatchElapsed, mm`mode
      ensures mm.stopwatchRunning == !old(mm.stopwatchRunning)
      ensures old(mm.stopwatchRunning) ==> mm.stopwatchElapsed == 0 && mm.mode == old(mm.mode) && mm.stopwatchStart == old(mm.stopwatchStart)
      ensures !old(mm.stopwatchRunning) ==> mm.stopwatchStart == now && mm.mode == Stopwatch
      ensures Valid()
    {
      if mm.stopwatchRunning {
        StopStopwatch();
      } else {
        StartStopwatch(now);
      }
    }

    /** Starts the countdown and asks the GUI to refill the hourglass. */
    method StartTimer(duration: int, now: int)
      requires Valid() && 0 <= duration <= TIMER_MAX
      modifies mm`timerDuration, mm`maxDuration, mm`timerStart, mm`timerActive, mm`mode, gui`reset
      ensures mm.timerDuration == duration && mm.maxDuration == duration
      ensures mm.timerStart == now && mm.timerActive && mm.mode == Timer
      ensures gui.reset
      ensures Valid()
    {
      mm.StartTimer(duration, now);
      gui.Reset();
    }

    method StopTimer()
      requires Valid()
      modifies mm`timerActive, mm`timerDuration
      ensures !mm.timerActive && mm.timerDuration == 0
      ensures Valid()
    {
      mm.StopTimer();
    }

    /** The STOPWATCH branch of Run: the clamped seconds as minutes and seconds in landscape. */
    method RunStopwatch(now: int)
      requires Valid() && ClockAfter(now)
      modifies gui.display.fb, gui`orientation
      ensures var d := StopwatchDisplay(mm.GetStopwatchSeconds(now));
        0 <= d && gui.display.Frame() == TimeLandscapeFrame(d / 60, d % 60)
      ensures gui.orientation == Landscape
    {
      var displaySec := mm.GetStopwatchSeconds(now);
      if displaySec >= 100 * 60 - 1 {
        displaySec := 100 * 60 - 1;
      }
      StopwatchDigits(mm.GetStopwatchSeconds(now));
      gui.RenderTimeLandscape(displaySec / 60, displaySec % 60);
    }

    /**
     * The start of the TIMER branch of Run, with the buzzer test corrected
     * (see BuzzAsWrittenNever): reads the remaining seconds, and when the
     * timer has just run out plays the note (`buzz`) and stops the sand.
     */
    method CheckTimer(now: int) returns (remaining: int, buzz: bool)
      requires Valid() && ClockAfter(now)
      modifies mm`timerActive, gui`sandEnable
      ensures Valid()
      ensures remaining == RemainingSeconds(old(mm.timerActive), mm.timerStart, mm.timerDuration, now)
      ensures mm.timerActive == (old(mm.timerActive) && !Expired(mm.timerStart, mm.timerDuration, now))
      ensures buzz == Buzz(old(mm.timerActive), mm.timerStart, mm.timerDuration, now)
      ensures gui.sandEnable == (old(gui.sandEnable) && !buzz)
      ensures 0 <= remaining <= mm.timerDuration
      ensures mm.timerActive ==> 0 < remaining <= mm.maxDuration
    {
      var wasActive := mm.timerActive;
      remaining := mm.GetRemainingTimerSeconds(now);
      RemainingCountsDown(mm.timerStart, mm.timerDuration, now, now);
      WholeSecondsMonotone(mm.timerStart, now, now);
      buzz := remaining == 0 && wasActive;
      if buzz {
        gui.SandDisable();
      }
    }

    /**
     * The start of the TIMER branch of Run as the source writes it: the
     * buzzer and sand-stop test `remaining == 0 && IsTimerRunning()` comes
     * after the getter, which has already switched an expired timer off, so
     * the test never holds and the note and SandDisable never happen.
     */
    method CheckTimerAsWritten(now: int) returns (remaining: int, buzz: bool)
      requires Valid() && ClockAfter(now)
      modifies mm`timerActive
      ensures Valid()
      ensures remaining == RemainingSeconds(old(mm.timerActive), mm.timerStart, mm.timerDuration, now)
      ensures mm.timerActive == (old(mm.timerActive) && !Expired(mm.timerStart, mm.timerDuration, now))
      ensures buzz == BuzzAsWritten(remaining, mm.timerActive)
      ensures !buzz
    {
      remaining := mm.GetRemainingTimerSeconds(now);
      buzz := remaining == 0 && mm.timerActive;
      BuzzAsWrittenNever(old(mm.timerActive), mm.timerStart, mm.timerDuration, now);
    }

    /**
     * The running, portrait part of the TIMER branch: turns the sand on and
     * lets one grain fall when the lower half holds fewer grains than the
     * share of elapsed time asks for.
     */
    method FlowSand(remaining: int)
      requires Valid() && 0 <= remaining && mm.maxDuration > 0
      modifies gui`sandEnable, gui.gridUp.grid, gui.gridDown.grid
      ensures Valid() && gui.sandEnable
      ensures var target := TargetCount(remaining, mm.maxDuration);
        if target > SandModel.CountRows(old(gui.gridDown.Model()))
        then SandModel.Transferred(old(gui.gridUp.Model()), old(gui.gridDown.Model()), gui.gridUp.Model(), gui.gridDown.Model(), gui.gravityDeg)
        else unchanged(gui.gridUp.grid, gui.gridDown.grid)
    {
      gui.SandEnable();
      var target := TargetCount(remaining, mm.maxDuration);
      DropGrain(gui.gridUp, gui.gridDown, target, gui.gravityDeg);
    }

    /**
     * What the TIMER branch shows for `remaining` seconds, given the grids,
     * frame, orientation and sand flag it started from: minutes and seconds
     * in landscape, or in portrait when the timer is off; while it runs in
     * portrait, the frame stays, the sand is on, and a grain falls when the
     * lower half holds fewer than the target count.
     */
    ghost predicate TimerShown(remaining: int, u0: seq<seq<bool>>, d0: seq<seq<bool>>, f0: seq<seq<bv8>>, ori0: Orientation, sand0: bool)
      requires Valid() && SandModel.IsGrid(u0) && SandModel.IsGrid(d0) && 0 <= remaining <= TIMER_MAX
      reads this, mm, gui, gui.gridUp, gui.gridDown, gui.display.fb, gui.gridUp.grid, gui.gridDown.grid
    {
      var flowing := !mm.landscape && mm.timerActive;
      && (mm.landscape ==> gui.display.Frame() == TimeLandscapeMSFrame(remaining / 60, remaining % 60) && gui.orientation == Landscape)
      && (!mm.landscape && !mm.timerActive ==> gui.display.Frame() == TimePortraitMSFrame(remaining / 60, remaining % 60) && gui.orientation == Portrait)
      && (flowing ==> gui.display.Frame() == f0 && gui.orientation == ori0)
      && gui.sandEnable == (flowing || sand0)
      && (!flowing ==> gui.gridUp.Model() == u0 && gui.gridDown.Model() == d0)
      && (flowing ==> mm.maxDuration > 0)
      && (flowing && mm.maxDuration > 0 ==>
            (if TargetCount(remaining, mm.maxDuration) > SandModel.CountRows(d0)
             then SandModel.Transferred(u0, d0, gui.gridUp.Model(), gui.gridDown.Model(), gui.gravityDeg)
             else gui.gridUp.Model() == u0 && gui.gridDown.Model() == d0))
    }

    /** The TIMER branch in landscape: minutes and seconds left, sideways. */
    method ShowTimerLandscape(remaining: int)
      requires Valid() && 0 <= remaining <= TIMER_MAX && mm.landscape
      modifies gui`orientation, gui.display.fb
      ensures Valid()
      ensures TimerShown(remaining, old(gui.gridUp.Model()), old(gui.gridDown.Model()), old(gui.display.Frame()), old(gui.orientation), old(gui.sandEnable))
    {
      gui.RenderTimeLandscapeMS(remaining / 60, remaining % 60);
    }

    /** The TIMER branch upright with the timer off: minutes and seconds left, upright. */
    method ShowTimerPortrait(remaining: int)
      requires Valid() && 0 <= remaining <= TIMER_MAX && !mm.landscape && !mm.timerActive
      modifies gui`orientation, gui.display.fb
      ensures Valid()
      ensures TimerShown(remaining, old(gui.gridUp.Model()), old(gui.gridDown.Model()), old(gui.display.Frame()), old(gui.orientation), old(gui.sandEnable))
    {
      gui.RenderTimePortraitMS(remaining / 60, remaining % 60);
    }

    /** The TIMER branch upright while the timer runs: the hourglass. */
    method ShowTimerFlowing(remaining: int)
      requires Valid() && 0 < remaining <= mm.maxDuration && !mm.landscape && mm.timerActive
      modifies gui`sandEnable, gui.gridUp.grid, gui.gridDown.grid
      ensures Valid()
      ensures TimerShown(remaining, old(gui.gridUp.Model()), old(gui.gridDown.Model()), old(gui.display.Frame()), old(gui.orientation), old(gui.sandEnable))
    {
      FlowSand(remaining);
    }

    /** The TIMER branch of Run after the remaining seconds are known. */
    method ShowTimer(remaining: int)
      requires Valid() && 0 <= remaining <= TIMER_MAX
      requires mm.timerActive ==> 0 < remaining <= mm.maxDuration
      modifies gui`sandEnable, gui`orientation, gui.display.fb, gui.gridUp.grid, gui.gridDown.grid
      ensures Valid()
      ensures TimerShown(remaining, old(gui.gridUp.Model()), old(gui.gridDown.Model()), old(gui.display.Frame()), old(gui.orientation), old(gui.sandEnable))
    {
      if mm.landscape {
        ShowTimerLandscape(remaining);
      } else if mm.timerActive {
        ShowTimerFlowing(remaining);
      } else {
        ShowTimerPortrait(remaining);
      }
    }

    /** The TIMER branch of Run. */
    method RunTimer(now: int) returns (remaining: int, buzz: bool)
      requires Valid() && ClockAfter(now)
      modifies mm`timerActive, gui`sandEnable, gui`orientation, gui.display.fb, gui.gridUp.grid, gui.gridDown.grid
      ensures Valid()
      ensures remaining == RemainingSeconds(old(mm.timerActive), mm.timerStart, mm.timerDuration, now)
      ensures mm.timerActive == (old(mm.timerActive) && !Expired(mm.timerStart, mm.timerDuration, now))
      ensures buzz == Buzz(old(mm.timerActive), mm.timerStart, mm.timerDuration, now)
      ensures 0 <= remaining <= TIMER_MAX
      ensures TimerShown(remaining, old(gui.gridUp.Model()), old(gui.gridDown.Model()), old(gui.display.Frame()), old(gui.orientation), old(gui.sandEnable) && !buzz)
    {
      ghost var u0, d0, f0 := gui.gridUp.Model(), gui.gridDown.Model(), gui.display.Frame();
      remaining, buzz := CheckTimer(now);
      assert gui.gridUp.Model() == u0 && gui.gridDown.Model() == d0;
      assert gui.display.Frame() == f0;
      ShowTimer(remaining);
    }

    /** What Run shows in the modes other than TIMER. */
    ghost predicate ScreenShown(now: int, hour: byte, minute: byte, humidity: byte, temperature: byte)
      requires Valid()
      reads this, mm, gui, gui.gridUp, gui.gridDown, gui.display.fb
    {
      && (mm.mode == Time ==>
            gui.display.Frame() == if mm.landscape then TimeLandscapeFrame(hour, minute) else TimePortraitFrame(hour, minute))
      && (mm.mode == Humidity ==> gui.display.Frame() == HumidityFrame(humidity))
      && (mm.mode == Temperature ==> gui.display.Frame() == TemperatureFrame(temperature))
      && (mm.mode == Stopwatch ==>
            var d := StopwatchDisplay(mm.GetStopwatchSeconds(now));
            0 <= d && gui.display.Frame() == TimeLandscapeFrame(d / 60, d % 60))
    }

    /** The TIME branch of Run: the wall-clock time in the current orientation. */
    method ShowTime(now: int, hour: byte, minute: byte, humidity: byte, temperature: byte)
      requires Valid() && mm.mode == Time
      modifies gui.display.fb, gui`orientation
      ensures Valid()
      ensures ScreenShown(now, hour, minute, humidity, temperature)
    {
      if mm.landscape {
        gui.RenderTimeLandscape(hour, minute);
      } else {
        gui.RenderTimePortrait(hour, minute);
      }
    }

    /** The HUMIDITY and TEMPERATURE branches of Run: the icon and the reading. */
    method ShowSensor(now: int, hour: byte, minute: byte, humidity: byte, temperature: byte)
      requires Valid() && (mm.mode == Humidity || mm.mode == Temperature)
      modifies gui.display.fb, gui`orientation
      ensures Valid()
      ensures ScreenShown(now, hour, minute, humidity, temperature)
    {
      if mm.mode == Humidity {
        gui.RenderHumidity(humidity);
      } else {
        gui.RenderTemperature(temperature);
      }
    }

    /** The STOPWATCH branch of Run, stated as what Run shows. */
    method ShowStopwatch(now: int, hour: byte, minute: byte, humidity: byte, temperature: byte)
      requires Valid() && ClockAfter(now) && mm.mode == Stopwatch
      modifies gui.display.fb, gui`orientation
      ensures Valid()
      ensures ScreenShown(now, hour, minute, humidity, temperature)
    {
      RunStopwatch(now);
    }

    /** The branches of Run for the clock, the two sensor screens and the stopwatch. */
    method RunScreen(now: int, hour: byte, minute: byte, humidity: byte, temperature: byte)
      requires Valid() && ClockAfter(now) && mm.mode != Timer
      modifies gui.display.fb, gui`orientation
      ensures Valid()
      ensures ScreenShown(now, hour, minute, humidity, temperature)
    {
      if mm.mode == Time {
        ShowTime(now, hour, minute, humidity, temperature);
      } else if mm.mode == Stopwatch {
        ShowStopwatch(now, hour, minute, humidity, temperature);
      } else {
        ShowSensor(now, hour, minute, humidity, temperature);
      }
    }

    /**
     * One pass of the display loop. The wall-clock hour and minute and the
     * humidity and temperature, already cast to 8 bits, are parameters;
     * `buzz` says whether the timer-finished note plays.
     */
    method Run(now: int, hour: byte, minute: byte, humidity: byte, temperature: byte) returns (buzz: bool)
      requires Valid() && ClockAfter(now)
      modifies mm`timerActive, gui`sandEnable, gui`orientation, gui.display.fb, gui.gridUp.grid, gui.gridDown.grid
      ensures Valid()
      ensures mm.mode != Timer ==> ScreenShown(now, hour, minute, humidity, temperature) && !buzz
      ensures mm.mode != Timer ==> mm.timerActive == old(mm.timerActive) && gui.sandEnable == old(gui.sandEnable)
      ensures mm.mode != Timer ==> unchanged(gui.gridUp.grid, gui.gridDown.grid)
      ensures mm.mode == Timer ==>
        && buzz == Buzz(old(mm.timerActive), mm.timerStart, mm.timerDuration, now)
        && mm.timerActive == (old(mm.timerActive) && !Expired(mm.timerStart, mm.timerDuration, now))
        && TimerShown(RemainingSeconds(old(mm.timerActive), mm.timerStart, mm.timerDuration, now),
             old(gui.gridUp.Model()), old(gui.gridDown.Model()), old(gui.display.Frame()), old(gui.orientation), old(gui.sandEnable) && !buzz)
    {
      if mm.mode == Timer {
        var _, b := RunTimer(now);
        buzz := b;
      } else {
        RunScreen(now, hour, minute, humidity, temperature);
        buzz := false;
      }
    }
  }
}
