/**
 * The two event dispatchers of the application: the gesture handler
 * (src/controller/inference_handler.hpp), which maps each classifier result
 * to timer and orientation actions, and the button handler
 * (src/controller/input_handler.hpp). Both act on the mode manager and the
 * GUI flags shared with the application, and reach the application's timer
 * and stopwatch controls through the callbacks it registers; here the
 * callbacks are calls on the `FluxSand` object itself.
 */
module Handlers {
  import opened Common
  import opened ModeManagement
  import opened Gui
  import opened Inference
  import opened Application

  /**
   * The state the handlers can change: every field of the mode manager and
   * the GUI's sand and reset flags.
   */
  datatype Controls = Controls(
    mode: Mode, landscape: bool,
    stopwatchRunning: bool, stopwatchStart: int, stopwatchElapsed: int,
    timerActive: bool, timerStart: int, timerDuration: int, maxDuration: int,
    sandEnable: bool, reset: bool)

  function ControlsOf(mm: ModeManager, gui: CompGui): Controls
    reads mm, gui
  {
    Controls(mm.mode, mm.landscape,
             mm.stopwatchRunning, mm.stopwatchStart, mm.stopwatchElapsed,
             mm.timerActive, mm.timerStart, mm.timerDuration, mm.maxDuration,
             gui.sandEnable, gui.reset)
  }

  /** The mode manager's invariant, on a snapshot. */
  predicate ControlsValid(c: Controls)
  {
    && c.stopwatchElapsed == 0
    && 0 <= c.timerDuration <= TIMER_MAX
    && 0 <= c.maxDuration <= TIMER_MAX
    && (c.timerActive ==> c.timerDuration == c.maxDuration)
  }

  /** The change of timer duration a tilt asks for: five minutes. */
  const TILT_STEP: int := 300

  /**
   * What the gesture callback does with `result`: an if/else-if chain per
   * gesture over the mode, the orientation and whether the timer runs, so at
   * most one branch acts. SHAKE_FORWARD restarts the timer for the duration
   * GetRemainingTimerSeconds reports for a stopped timer, its stored one.
   */
  function Gestured(c: Controls, result: Gesture, now: int): (d: Controls)
  {
    match result
    case TiltRight =>
      if c.mode == Timer && !c.timerActive then c.(timerDuration := Adjusted(c.timerDuration, TILT_STEP))
      else if c.mode == Time && !c.landscape then c.(landscape := true)
      else if c.mode == Timer && !c.landscape && c.timerActive then c.(landscape := true, sandEnable := false)
      else c
    case TiltLeft =>
      if c.mode == Timer && !c.timerActive then c.(timerDuration := Adjusted(c.timerDuration, -TILT_STEP))
      else if c.mode == Time && c.landscape then c.(landscape := false)
      else if c.mode == Timer && c.landscape && c.timerActive then c.(landscape := false, sandEnable := true)
      else c
    case ShakeForward =>
      if c.mode == Timer && !c.timerActive then
        c.(maxDuration := c.timerDuration, timerStart := now,
           timerActive := true, mode := Timer, reset := true)
      else c
    case ShakeBackward =>
      if c.mode == Timer then c.(timerActive := false, timerDuration := 0, sandEnable := false)
      else c
    case _ => c
  }

  /** No gesture changes the mode or the stopwatch. */
  lemma GestureKeepsMode(c: Controls, result: Gesture, now: int)
    ensures var d := Gestured(c, result, now);
      && d.mode == c.mode
      && d.stopwatchRunning == c.stopwatchRunning && d.stopwatchStart == c.stopwatchStart
      && d.stopwatchElapsed == c.stopwatchElapsed
  {
  }

  /** Every gesture keeps the mode manager's invariant. */
  lemma GestureKeepsValid(c: Controls, result: Gesture, now: int)
    requires ControlsValid(c)
    ensures ControlsValid(Gestured(c, result, now))
  {
  }

  /**
   * Only the four tilt and shake gestures act, and only in TIME or TIMER
   * mode; in TIME only the orientation can change.
   */
  lemma GestureUnmatched(c: Controls, result: Gesture, now: int)
    ensures result !in {TiltLeft, TiltRight, ShakeForward, ShakeBackward} ==> Gestured(c, result, now) == c
    ensures c.mode !in {Time, Timer} ==> Gestured(c, result, now) == c
    ensures c.mode == Time ==> Gestured(c, result, now) == c.(landscape := Gestured(c, result, now).landscape)
  {
  }

  /** In TIMER with the timer stopped a tilt adjusts the duration by five minutes and touches nothing else. */
  lemma TiltAdjusts(c: Controls, now: int)
    requires c.mode == Timer && !c.timerActive
    ensures Gestured(c, TiltRight, now) == c.(timerDuration := Adjusted(c.timerDuration, TILT_STEP))
    ensures Gestured(c, TiltLeft, now) == c.(timerDuration := Adjusted(c.timerDuration, -TILT_STEP))
    ensures Gestured(c, TiltRight, now).landscape == c.landscape
  {
  }

  /**
   * Tilting left undoes tilting right: for a stopped timer whose duration
   * leaves room for five more minutes, in TIME mode held upright, and for a
   * running timer held upright with the sand on.
   */
  lemma TiltRoundTrip(c: Controls, now: int)
    requires || (c.mode == Time && !c.landscape)
             || (c.mode == Timer && !c.timerActive && 0 <= c.timerDuration <= TIMER_MAX - TILT_STEP)
             || (c.mode == Timer && c.timerActive && !c.landscape && c.sandEnable)
    ensures Gestured(Gestured(c, TiltRight, now), TiltLeft, now) == c
  {
  }

  /** SHAKE_FORWARD restarts a stopped timer from its stored duration and asks the GUI to refill. */
  lemma ShakeForwardStarts(c: Controls, now: int)
    requires c.mode == Timer && !c.timerActive
    ensures var d := Gestured(c, ShakeForward, now);
      && d.timerActive && d.timerStart == now && d.reset
      && d.timerDuration == c.timerDuration && d.maxDuration == c.timerDuration
      && d.landscape == c.landscape && d.sandEnable == c.sandEnable
  {
  }

  /** SHAKE_BACKWARD in TIMER stops the timer and the sand whether or not the timer was running. */
  lemma ShakeBackwardStops(c: Controls, now: int)
    requires c.mode == Timer
    ensures var d := Gestured(c, ShakeBackward, now);
      && !d.timerActive && d.timerDuration == 0 && !d.sandEnable
      && d.maxDuration == c.maxDuration && d.landscape == c.landscape
    ensures Gestured(Gestured(c, ShakeBackward, now), ShakeBackward, now) == Gestured(c, ShakeBackward, now)
  {
  }

  /** What the mode button does: the next mode, with the sand off. */
  function Button1Pressed(c: Controls): (d: Controls)
  {
    c.(mode := Next(c.mode), sandEnable := false)
  }

  /** What the second button does: toggle the stopwatch, or stop a running timer and the sand. */
  function Button2Pressed(c: Controls, now: int): (d: Controls)
  {
    if c.mode == Stopwatch then
      if c.stopwatchRunning then c.(stopwatchRunning := false, stopwatchElapsed := 0)
      else c.(stopwatchRunning := true, stopwatchStart := now, mode := Stopwatch)
    else if c.mode == Timer && c.timerActive then
      c.(timerActive := false, timerDuration := 0, sandEnable := false)
    else c
  }

  /** The state after k presses of the mode button. */
  function Button1Presses(c: Controls, k: nat): Controls
  {
    if k == 0 then c else Button1Pressed(Button1Presses(c, k - 1))
  }

  /** k presses advance the mode k steps and change nothing else but the sand, which ends up off. */
  lemma {:induction false} Button1Steps(c: Controls, k: nat)
    ensures Button1Presses(c, k).mode == NextN(c.mode, k)
    ensures k > 0 ==> Button1Presses(c, k) == c.(mode := NextN(c.mode, k), sandEnable := false)
    ensures k == 0 ==> Button1Presses(c, k) == c
  {
    if k > 0 {
      Button1Steps(c, k - 1);
    }
  }

  /** Five presses of the mode button come back to the starting mode, with the sand off. */
  lemma Button1Cycle(c: Controls)
    ensures Button1Presses(c, MODE_NUM) == c.(sandEnable := false)
  {
    Button1Steps(c, MODE_NUM);
    NextCycle(c.mode);
  }

  /**
   * The second button: in STOPWATCH it flips whether the stopwatch runs; in
   * TIME, HUMIDITY and TEMPERATURE, and in TIMER with the timer stopped, it
   * changes nothing; it never changes the orientation, and keeps the
   * mode manager's invariant.
   */
  lemma Button2Meaning(c: Controls, now: int)
    ensures var d := Button2Pressed(c, now);
      && d.mode == c.mode && d.landscape == c.landscape
      && (c.mode == Stopwatch ==> d.stopwatchRunning == !c.stopwatchRunning && d.timerActive == c.timerActive)
      && (c.mode in {Time, Humidity, Temperature} ==> d == c)
      && (c.mode == Timer && !c.timerActive ==> d == c)
      && (c.mode == Timer && c.timerActive ==> !d.timerActive && d.timerDuration == 0 && !d.sandEnable)
      && (ControlsValid(c) ==> ControlsValid(d))
  {
  }

  /** Starting and then stopping the stopwatch leaves everything as before but the recorded start. */
  lemma Button2Twice(c: Controls, now: int, later: int)
    requires c.mode == Stopwatch && !c.stopwatchRunning && c.stopwatchElapsed == 0
    ensures Button2Pressed(Button2Pressed(c, now), later) == c.(stopwatchStart := now)
  {
  }

  /** The gesture callback registered by InferenceHandler::Init. */
  class InferenceHandler {
    const app: FluxSand

    constructor (app: FluxSand)
      ensures this.app == app
    {
      this.app := app;
    }

    ghost predicate Valid()
      reads this, app, app.mm, app.gui, app.gui.gridUp, app.gui.gridDown
    {
      app.Valid()
    }

    /**
     * One classifier result delivered to the callback, at clock reading
     * `now` (used only when SHAKE_FORWARD starts the timer).
     */
    method OnResult(result: Gesture, now: int)
      requires Valid()
      modifies app.mm, app.gui`sandEnable, app.gui`reset
      ensures Valid()
      ensures ControlsOf(app.mm, app.gui) == Gestured(old(ControlsOf(app.mm, app.gui)), result, now)
    {
      match result
      case TiltRight => OnTiltRight();
      case TiltLeft => OnTiltLeft();
      case ShakeForward => OnShakeForward(now);
      case ShakeBackward => OnShakeBackward();
      case _ =>
    }

    /** The TILT_RIGHT case: lengthen a stopped timer, or turn the screen sideways. */
    method OnTiltRight()
      requires Valid()
      modifies app.mm`timerDuration, app.mm`landscape, app.gui`sandEnable
      ensures Valid()
      ensures ControlsOf(app.mm, app.gui) == Gestured(old(ControlsOf(app.mm, app.gui)), TiltRight, 0)
    {
      var mm, gui := app.mm, app.gui;
      var mode := mm.mode;
      var landscape := mm.landscape;
      if mode == Timer && !mm.timerActive {
        mm.AdjustTimer(TILT_STEP);
      } else if mode == Time && !landscape {
        mm.SetLandscape(true);
      } else if mode == Timer && !landscape && mm.timerActive {
        mm.SetLandscape(true);
        gui.SandDisable();
      }
    }

    /** The TILT_LEFT case: shorten a stopped timer, or turn the screen upright. */
    method OnTiltLeft()
      requires Valid()
      modifies app.mm`timerDuration, app.mm`landscape, app.gui`sandEnable
      ensures Valid()
      ensures ControlsOf(app.mm, app.gui) == Gestured(old(ControlsOf(app.mm, app.gui)), TiltLeft, 0)
    {
      var mm, gui := app.mm, app.gui;
      var mode := mm.mode;
      var landscape := mm.landscape;
      if mode == Timer && !mm.timerActive {
        mm.AdjustTimer(-TILT_STEP);
      } else if mode == Time && landscape {
        mm.SetLandscape(false);
      } else if mode == Timer && landscape && mm.timerActive {
        mm.SetLandscape(false);
        gui.SandEnable();
      }
    }

    /** The SHAKE_FORWARD case: start a stopped timer from what it shows. */
    method OnShakeForward(now: int)
      requires Valid()
      modifies app.mm, app.gui`reset
      ensures Valid()
      ensures ControlsOf(app.mm, app.gui) == Gestured(old(ControlsOf(app.mm, app.gui)), ShakeForward, now)
    {
      var mm := app.mm;
      var mode := mm.mode;
      if mode == Timer && !mm.timerActive {
        var remaining := mm.GetRemainingTimerSeconds(now);
        app.StartTimer(remaining, now);
      }
    }

    /** The SHAKE_BACKWARD case: stop the timer and the sand. */
    method OnShakeBackward()
      requires Valid()
      modifies app.mm`timerActive, app.mm`timerDuration, app.gui`sandEnable
      ensures Valid()
      ensures ControlsOf(app.mm, app.gui) == Gestured(old(ControlsOf(app.mm, app.gui)), ShakeBackward, 0)
    {
      var mode := app.mm.mode;
      if mode == Timer {
        app.StopTimer();
        app.gui.SandDisable();
      }
    }
  }

  /** The two button callbacks registered by InputHandler::Init. */
  class InputHandler {
    const app: FluxSand

    constructor (app: FluxSand)
      ensures this.app == app
    {
      this.app := app;
    }

    ghost predicate Valid()
      reads this, app, app.mm, app.gui, app.gui.gridUp, app.gui.gridDown
    {
      app.Valid()
    }

    /** Button 1: the next mode, with the sand off. */
    method OnButton1()
      requires Valid()
      modifies app.mm`mode, app.gui`sandEnable
      ensures Valid()
      ensures ControlsOf(app.mm, app.gui) == Button1Pressed(old(ControlsOf(app.mm, app.gui)))
    {
      app.mm.NextMode();
      app.gui.SandDisable();
    }

    /** Button 2 at clock reading `now`: the stopwatch toggle, or stopping a running timer. */
    method OnButton2(now: int)
      requires Valid()
      modifies app.mm, app.gui`sandEnable
      ensures Valid()
      ensures ControlsOf(app.mm, app.gui) == Button2Pressed(old(ControlsOf(app.mm, app.gui)), now)
    {
      var mode := app.mm.mode;
      if mode == Stopwatch {
        app.ToggleStopwatch(now);
      } else if mode == Timer && app.mm.timerActive {
        app.StopTimer();
        app.gui.SandDisable();
      }
    }
  }
}
