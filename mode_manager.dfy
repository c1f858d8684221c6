/**
 * The application's mode cycle and its stopwatch and countdown timer
 * (src/controller/mode_manager.hpp). Time points of the steady clock are
 * integers counting nanoseconds; every operation that reads the clock takes
 * the current time point as a parameter.
 */
module ModeManagement {
  import opened Common

  /** The display modes, in the order the mode button cycles through them. */
  datatype Mode = Time | Humidity | Temperature | Stopwatch | Timer

  /** MODE_NUM: the number of modes. */
  const MODE_NUM: nat := 5

  /** Nanoseconds per second: duration_cast<seconds> divides by this. */
  const NS_PER_SEC: int := 1_000_000_000

  /** The longest timer that can be set: 99 minutes less one second. */
  const TIMER_MAX: int := 60 * 99 - 1

  /** The underlying value of the `Mode` enum. */
  function Ordinal(m: Mode): (k: nat)
    ensures k < MODE_NUM
  {
    match m
    case Time => 0
    case Humidity => 1
    case Temperature => 2
    case Stopwatch => 3
    case Timer => 4
  }

  /** static_cast<Mode> of an ordinal. */
  function FromOrdinal(k: nat): (m: Mode)
    requires k < MODE_NUM
    ensures Ordinal(m) == k
  {
    if k == 0 then Time
    else if k == 1 then Humidity
    else if k == 2 then Temperature
    else if k == 3 then Stopwatch
    else Timer
  }

  lemma OrdinalInjective(m: Mode, n: Mode)
    ensures Ordinal(m) == Ordinal(n) ==> m == n
  {
  }

  /** The mode NextMode switches to: the next ordinal, wrapping after TIMER. */
  function Next(m: Mode): (n: Mode)
    ensures Ordinal(n) == (Ordinal(m) + 1) % MODE_NUM
  {
    FromOrdinal((Ordinal(m) + 1) % MODE_NUM)
  }

  /** The mode reached after pressing the mode button k times. */
  function NextN(m: Mode, k: nat): Mode
  {
    if k == 0 then m else Next(NextN(m, k - 1))
  }

  /** k presses advance the ordinal by k, modulo the number of modes. */
  lemma {:induction false} NextNOrdinal(m: Mode, k: nat)
    ensures Ordinal(NextN(m, k)) == (Ordinal(m) + k) % MODE_NUM
  {
    if k > 0 {
      NextNOrdinal(m, k - 1);
    }
  }

  /** MODE_NUM presses of the mode button return to the starting mode. */
  lemma NextCycle(m: Mode)
    ensures NextN(m, MODE_NUM) == m
  {
    NextNOrdinal(m, MODE_NUM);
    assert (Ordinal(m) + MODE_NUM) % MODE_NUM == Ordinal(m);
    OrdinalInjective(NextN(m, MODE_NUM), m);
  }

  /** Every mode is reached from every mode in fewer than MODE_NUM presses. */
  lemma NextReaches(m: Mode, target: Mode) returns (k: nat)
    ensures k < MODE_NUM && NextN(m, k) == target
  {
    var o, t := Ordinal(m), Ordinal(target);
    k := if o <= t then t - o else t + MODE_NUM - o;
    NextNOrdinal(m, k);
    assert o + k == t || o + k == t + MODE_NUM;
    OrdinalInjective(NextN(m, k), target);
  }

  /**
   * duration_cast<seconds>(now - start).count(): the whole seconds between
   * two time points, truncated toward zero.
   */
  function WholeSeconds(start: int, now: int): int
  {
    TruncDiv(now - start, NS_PER_SEC)
  }

  lemma WholeSecondsMonotone(start: int, t1: int, t2: int)
    requires start <= t1 <= t2
    ensures 0 <= WholeSeconds(start, t1) <= WholeSeconds(start, t2)
    ensures WholeSeconds(start, t1) * NS_PER_SEC <= t1 - start < (WholeSeconds(start, t1) + 1) * NS_PER_SEC
  {
  }

  /** What GetStopwatchSeconds reports for a given state and clock reading. */
  function StopwatchSeconds(running: bool, start: int, elapsed: int, now: int): int
  {
    if running then elapsed + WholeSeconds(start, now) else elapsed
  }

  /** A running stopwatch counts up with the clock, a stopped one shows its stored seconds. */
  lemma StopwatchCountsUp(start: int, elapsed: int, t1: int, t2: int)
    requires start <= t1 <= t2
    ensures StopwatchSeconds(false, start, elapsed, t2) == elapsed
    ensures elapsed <= StopwatchSeconds(true, start, elapsed, t1) <= StopwatchSeconds(true, start, elapsed, t2)
    ensures StopwatchSeconds(true, start, elapsed, start) == elapsed
    ensures StopwatchSeconds(true, start, elapsed, start + NS_PER_SEC * 60) == elapsed + 60
  {
    WholeSecondsMonotone(start, t1, t2);
  }

  /** Whether an active timer has run out at `now`. */
  predicate Expired(start: int, duration: int, now: int)
  {
    WholeSeconds(start, now) >= duration
  }

  /** What GetRemainingTimerSeconds returns for a given state and clock reading. */
  function RemainingSeconds(active: bool, start: int, duration: int, now: int): int
  {
    if !active then duration
    else if Expired(start, duration, now) then 0
    else duration - WholeSeconds(start, now)
  }

  /**
   * A running timer counts down from its duration to zero, one per whole
   * second, and never increases; a stopped one shows its set duration.
   */
  lemma {:induction false} RemainingCountsDown(start: int, duration: int, t1: int, t2: int)
    requires 0 <= duration && start <= t1 <= t2
    ensures RemainingSeconds(false, start, duration, t1) == duration
    ensures 0 <= RemainingSeconds(true, start, duration, t2) <= RemainingSeconds(true, start, duration, t1) <= duration
    ensures RemainingSeconds(true, start, duration, t1) == 0 <==> Expired(start, duration, t1)
    ensures Expired(start, duration, start + duration * NS_PER_SEC)
    ensures duration > 0 ==> RemainingSeconds(true, start, duration, start) == duration
  {
    WholeSecondsMonotone(start, t1, t2);
    WholeSecondsMonotone(start, start + duration * NS_PER_SEC, start + duration * NS_PER_SEC);
  }

  /** AdjustTimer's new duration: the sum kept within 0 and 98:59 (5939 seconds). */
  function Adjusted(duration: int, delta: int): (d: int)
    ensures 0 <= d <= TIMER_MAX
    ensures 0 <= duration + delta <= TIMER_MAX ==> d == duration + delta
    ensures delta >= 0 ==> d >= Clamp(duration, 0, TIMER_MAX)
    ensures delta <= 0 ==> d <= Clamp(duration, 0, TIMER_MAX)
  {
    Clamp(duration + delta, 0, TIMER_MAX)
  }

  class ModeManager {
    var mode: Mode
    var landscape: bool

    var stopwatchRunning: bool
    var stopwatchStart: int
    var stopwatchElapsed: int

    var timerActive: bool
    var timerStart: int
    var timerDuration: int
    var maxDuration: int

    /**
     * What the rest of the program can rely on: the stored stopwatch seconds
     * are never anything but zero, the durations stay within 0 and 98:59 (5939 seconds),
     * and an active timer keeps the duration it was started with.
     */
    ghost predicate Valid()
      reads this
    {
      && stopwatchElapsed == 0
      && 0 <= timerDuration <= TIMER_MAX
      && 0 <= maxDuration <= TIMER_MAX
      && (timerActive ==> timerDuration == maxDuration)
    }

    constructor ()
      ensures mode == Time && !landscape
      ensures !stopwatchRunning && stopwatchElapsed == 0
      ensures !timerActive && timerDuration == 0 && maxDuration == 0
      ensures Valid()
    {
      mode := Time;
      landscape := false;
      stopwatchRunning := false;
      stopwatchStart := 0;
      stopwatchElapsed := 0;
      timerActive := false;
      timerStart := 0;
      timerDuration := 0;
      maxDuration := 0;
    }

    method NextMode()
      modifies this`mode
      ensures mode == Next(old(mode))
    {
      mode := FromOrdinal((Ordinal(mode) + 1) % MODE_NUM);
    }

    method SetLandscape(val: bool)
      modifies this`landscape
      ensures landscape == val
    {
      landscape := val;
    }

    /** Starts the stopwatch at `now` unless it is already running. */
    method StartStopwatch(now: int)
      modifies this`stopwatchStart, this`stopwatchRunning, this`mode
      ensures old(stopwatchRunning) ==> unchanged(this)
      ensures !old(stopwatchRunning) ==> stopwatchRunning && stopwatchStart == now && mode == Stopwatch
      ensures old(Valid()) ==> Valid()
    {
      if !stopwatchRunning {
        stopwatchStart := now;
        stopwatchRunning := true;
        mode := Stopwatch;
      }
    }

    /** Stops a running stopwatch and clears its stored seconds. */
    method StopStopwatch()
      modifies this`stopwatchRunning, this`stopwatchElapsed
      ensures old(stopwatchRunning) ==> !stopwatchRunning && stopwatchElapsed == 0
      ensures !old(stopwatchRunning) ==> unchanged(this)
      ensures !stopwatchRunning
      ensures old(Valid()) ==> Valid()
    {
      if stopwatchRunning {
        stopwatchRunning := false;
        stopwatchElapsed := 0;
      }
    }

    /** GetStopwatchSeconds at time point `now`. */
    function GetStopwatchSeconds(now: int): (s: int)
      reads this
      ensures !stopwatchRunning ==> s == stopwatchElapsed
      ensures Valid() && stopwatchStart <= now ==> 0 <= s
    {
      StopwatchSeconds(stopwatchRunning, stopwatchStart, stopwatchElapsed, now)
    }

    /** Starts (or restarts) the countdown from `duration` seconds at `now`. */
    method StartTimer(duration: int, now: int)
      requires InInt32(duration)
      modifies this`timerDuration, this`maxDuration, this`timerStart, this`timerActive, this`mode
      ensures timerDuration == duration && maxDuration == duration
      ensures timerStart == now && timerActive && mode == Timer
      ensures old(Valid()) && 0 <= duration <= TIMER_MAX ==> Valid()
    {
      timerDuration := duration;
      maxDuration := duration;
      timerStart := now;
      timerActive := true;
      mode := Timer;
    }

    method StopTimer()
      modifies this`timerActive, this`timerDuration
      ensures !timerActive && timerDuration == 0
      ensures old(Valid()) ==> Valid()
    {
      timerActive := false;
      timerDuration := 0;
    }

    /**
     * GetRemainingTimerSeconds at `now`: the seconds left, and the timer
     * switches itself off once the full duration has elapsed.
     */
    method GetRemainingTimerSeconds(now: int) returns (remaining: int)
      modifies this`timerActive
      ensures remaining == RemainingSeconds(old(timerActive), timerStart, timerDuration, now)
      ensures timerActive == (old(timerActive) && !Expired(timerStart, timerDuration, now))
      ensures old(Valid()) ==> Valid()
    {
      remaining := timerDuration;
      if timerActive {
        var elapsed := WholeSeconds(timerStart, now);
        if elapsed >= timerDuration {
          remaining := 0;
          timerActive := false;
        } else {
          remaining := remaining - elapsed;
        }
      }
    }

    /** Changes the duration of a timer that is not running, within 0 and 98:59 (5939 seconds). */
    method AdjustTimer(delta: int)
      requires InInt32(delta) && InInt32(timerDuration + delta)
      modifies this`timerDuration
      ensures timerDuration == if old(timerActive) then old(timerDuration) else Adjusted(old(timerDuration), delta)
      ensures old(Valid()) ==> Valid()
    {
      if !timerActive {
        timerDuration := Clamp(timerDuration + delta, 0, TIMER_MAX);
      }
    }
  }
}
