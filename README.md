# FluxSand in Dafny

FluxSand is an electronic hourglass built on a Raspberry Pi. Two LED matrices
sit at 45 degrees, each made of four daisy-chained MAX7219 8x8 chips. They show
a clock, the humidity and temperature, a stopwatch and a countdown timer. While
the timer runs, grains of sand fall from the upper matrix to the lower one.
Tilt and shake gestures, recognised by a small neural classifier from the
MPU-9250 motion readings, and two buttons drive the device. An ADS1115
converter reads a thermistor and a photodiode. The photodiode sets the display
brightness. An AHT20 and a BMP280 give the humidity, the ambient temperature
and the pressure.

This project models the discrete core of the program and proves properties of
the model. There is one module per source file:

- `ModeManagement` (mode_manager.dfy): the mode cycle, the stopwatch and the
  countdown timer, as a class whose methods update its fields.
- `Handlers` (handlers.dfy): the gesture and button dispatchers. Each event is
  specified by a function on a snapshot of the state it touches.
- `Application` (application.dfy): the application object's timer and
  stopwatch callbacks and one pass of its display loop. This includes the
  lower half's target grain count and the timer-finished buzzer.
- `SandModel` (sand.dfy): the 16x16 sand grid on an `array2<bool>`, with its
  cell operations, the simulation step, the grain counts and the transfer
  between the two halves. The headline property is conservation of grains.
- `Gui` (gui.dfy): the 5x7 digit font, the 45-degree transforms, every screen
  and the hourglass view. Each screen is a pure function of its inputs, with
  lemmas that say pixel by pixel what it lights.
- `Led` (max7219.dfy): the MAX7219 chain's framebuffer, the mapping from the
  16x32 matrix to the chips, and the SPI command frames with No-Op cascading,
  after Table 2 of the MAX7219/MAX7221 datasheet.
- `Inference` (inference.dfy): the gesture classifier's post-processing. This
  covers the feature window, the update-rate counter, thresholded argmax,
  majority voting and the change-only callback.
- `CycleValues` (cycle_value.dfy): angles normalized into [0, 2π) and signed
  differences in [-π, π).
- The sensor drivers:
  - `Bmp280Driver` (bmp280.dfy): the fixed-point compensation of section
    3.11.3 of the Bosch BMP280 datasheet.
  - `Aht20Driver` (aht20.dfy): the 20-bit fields of section 6 of the Aosong
    AHT20 datasheet.
  - `Ads1115Driver` (ads1115.dfy): the config word and the round-robin scan.
  - `Mpu9250Driver` (mpu9250.dfy): the 14-byte burst decode and gyroscope
    calibration.
- `Sensors` (sensor_manager.dfy): the sensor manager's 51-reading light
  average and its null-guarded getters.
- `Common` (common.dfy): bytes, the fixed-width integer conversions, and
  C++'s truncating division.

## Modelling conventions

- Time:
  - A steady-clock time point is an integer number of nanoseconds, passed to
    every operation that reads the clock.
  - `duration_cast<seconds>` is truncating division by 10^9.
  - The wall-clock hour and minute are parameters.
- Numbers:
  - C++ integers are unbounded integers. Where the source narrows them, the
    narrowing is written out: uint32 wrap-around, int16 two's complement,
    uint8 casts.
  - A signed right shift is a floor division.
  - Where a C++ intermediate could overflow (undefined behaviour), a
    precondition says it fits.
  - `float` and `double` are exact reals. There is no rounding, NaN or
    infinity. Where the source checks for a non-finite value, the check is a
    boolean parameter.
- Outside inputs:
  - Buses are logs of the byte strings written. The bytes a device answers
    are parameters.
  - Callbacks are direct calls, or records of their invocations.
  - The random draws and the trigonometric scores of the sand step are
    parameters: the candidate index, the eight dot products of the directions
    with gravity, and the per-cell noisy thresholds.
  - The classifier network is a function value.

## Model

| member | source | states |
|---|---|---|
| ModeManagement.Ordinal | src/controller/mode_manager.hpp:10-17 | each mode's underlying value is below MODE_NUM |
| ModeManagement.FromOrdinal | src/controller/mode_manager.hpp:24-25 | the cast back from an ordinal gives the mode with that ordinal |
| ModeManagement.OrdinalInjective | src/controller/mode_manager.hpp:10-17 | distinct modes have distinct ordinals |
| ModeManagement.Next | src/controller/mode_manager.hpp:23-26 | the next mode's ordinal is the current one plus one, modulo MODE_NUM |
| ModeManagement.NextNOrdinal | src/controller/mode_manager.hpp:23-26 | k steps advance the ordinal by k modulo MODE_NUM |
| ModeManagement.NextCycle | src/controller/mode_manager.hpp:23-26 | MODE_NUM steps return to the starting mode |
| ModeManagement.NextReaches | src/controller/mode_manager.hpp:23-26 | every mode is reached from every mode in fewer than MODE_NUM steps |
| ModeManagement.WholeSecondsMonotone | src/controller/mode_manager.hpp:61-63 | the whole seconds elapsed are non-negative, never decrease as the clock advances and are the elapsed time truncated to seconds |
| ModeManagement.StopwatchCountsUp | src/controller/mode_manager.hpp:57-66 | a stopped stopwatch shows its stored seconds; a running one starts at them, never goes back and shows 60 more after a minute |
| ModeManagement.RemainingCountsDown | src/controller/mode_manager.hpp:91-107 | a stopped timer shows its duration; a running one counts down from the duration to 0 without increasing, and reads 0 exactly when the duration has elapsed |
| ModeManagement.Adjusted | src/controller/mode_manager.hpp:116-121 | the new duration lies within 0 and 5939 seconds, equals the sum when that is in range, and moves in the direction of the change |
| ModeManagement.ModeManager.constructor | src/controller/mode_manager.hpp:124-136 | starts in TIME mode, portrait, with the stopwatch and the timer stopped and cleared |
| ModeManagement.ModeManager.NextMode | src/controller/mode_manager.hpp:23-26 | the mode becomes the next one in the cycle |
| ModeManagement.ModeManager.SetLandscape | src/controller/mode_manager.hpp:32 | the orientation flag becomes the given value |
| ModeManagement.ModeManager.StartStopwatch | src/controller/mode_manager.hpp:38-45 | a stopped stopwatch starts at the given time and switches to STOPWATCH mode; a running one is left alone |
| ModeManagement.ModeManager.StopStopwatch | src/controller/mode_manager.hpp:48-54 | a running stopwatch stops and its stored seconds are cleared; a stopped one is left alone |
| ModeManagement.ModeManager.GetStopwatchSeconds | src/controller/mode_manager.hpp:57-66 | a stopped stopwatch reports its stored seconds; the reading is never negative after the start |
| ModeManagement.ModeManager.StartTimer | src/controller/mode_manager.hpp:74-81 | the duration and the maximum become the given seconds, the timer runs from now and the mode becomes TIMER |
| ModeManagement.ModeManager.StopTimer | src/controller/mode_manager.hpp:84-88 | the timer is stopped and its duration cleared |
| ModeManagement.ModeManager.GetRemainingTimerSeconds | src/controller/mode_manager.hpp:91-107 | returns the remaining seconds, and the timer stays active exactly when it was active and has not expired |
| ModeManagement.ModeManager.AdjustTimer | src/controller/mode_manager.hpp:116-121 | a stopped timer's duration becomes the clamped sum; a running timer is not changed |
| Handlers.GestureKeepsMode | src/controller/inference_handler.hpp:35-92 | no gesture changes the mode or the stopwatch |
| Handlers.GestureKeepsValid | src/controller/inference_handler.hpp:35-92 | every gesture keeps the durations within 0 and 5939 seconds and the stopwatch's stored seconds at zero |
| Handlers.GestureUnmatched | src/controller/inference_handler.hpp:35-92 | only the tilt and shake gestures act, only in TIME or TIMER mode, and in TIME only the orientation can change |
| Handlers.TiltAdjusts | src/controller/inference_handler.hpp:38-60 | in TIMER with the timer stopped, a tilt right adds and a tilt left takes off 300 seconds, clamped, and nothing else changes |
| Handlers.TiltRoundTrip | src/controller/inference_handler.hpp:36-72 | a tilt left undoes a tilt right for a stopped timer with room for five more minutes, in upright TIME mode, and for a running upright timer with the sand on |
| Handlers.ShakeForwardStarts | src/controller/inference_handler.hpp:74-80 | in TIMER with the timer stopped, a forward shake starts it now from its stored duration, sets the maximum to it and requests a refill |
| Handlers.ShakeBackwardStops | src/controller/inference_handler.hpp:82-88 | in TIMER a backward shake stops the timer, clears its duration and stops the sand; a second shake changes nothing more |
| Handlers.Button1Steps | src/controller/input_handler.hpp:29-35 | k presses of button 1 advance the mode k steps, switch the sand off and change nothing else |
| Handlers.Button1Cycle | src/controller/input_handler.hpp:29-35 | five presses of button 1 return to the starting mode |
| Handlers.Button2Meaning | src/controller/input_handler.hpp:42-55 | button 2 flips the stopwatch in STOPWATCH mode, stops a running timer and the sand in TIMER, does nothing otherwise, and never changes mode or orientation |
| Handlers.Button2Twice | src/controller/input_handler.hpp:48-49 | in STOPWATCH mode, two presses of button 2 leave everything as it was except the recorded start time |
| Handlers.InferenceHandler.constructor | src/controller/inference_handler.hpp:14-22 | the handler keeps the application it acts on |
| Handlers.InferenceHandler.OnResult | src/controller/inference_handler.hpp:24-93 | the mode manager and the GUI flags change as Gestured describes, and the invariant is kept |
| Handlers.InferenceHandler.OnTiltRight | src/controller/inference_handler.hpp:36-53 | the state changes as Gestured says for TILT_RIGHT |
| Handlers.InferenceHandler.OnTiltLeft | src/controller/inference_handler.hpp:55-72 | the state changes as Gestured says for TILT_LEFT |
| Handlers.InferenceHandler.OnShakeForward | src/controller/inference_handler.hpp:74-80 | the state changes as Gestured says for SHAKE_FORWARD |
| Handlers.InferenceHandler.OnShakeBackward | src/controller/inference_handler.hpp:82-88 | the state changes as Gestured says for SHAKE_BACKWARD |
| Handlers.InputHandler.constructor | src/controller/input_handler.hpp:16-23 | the handler keeps the application it acts on |
| Handlers.InputHandler.OnButton1 | src/controller/input_handler.hpp:29-35 | the state changes as Button1Pressed says: the next mode, with the sand off |
| Handlers.InputHandler.OnButton2 | src/controller/input_handler.hpp:42-55 | the state changes as Button2Pressed says |
| Application.StopwatchDisplay | src/controller/fluxsand.hpp:110-111 | the seconds shown are the stopwatch seconds capped at 5999 (99:59) |
| Application.StopwatchDigits | src/controller/fluxsand.hpp:110-112 | the shown seconds split into at most 99 whole minutes and fewer than 60 seconds, which recombine to them |
| Application.QuotBounds | src/controller/fluxsand.hpp:132-135 | the quotient leaves a remainder in [0, b) |
| Application.QuotMonotone | src/controller/fluxsand.hpp:132-135 | the quotient never decreases as the dividend grows |
| Application.QuotMultiple | src/controller/fluxsand.hpp:132-135 | a multiple of b divided by b gives back the factor |
| Application.TargetCountFloat | src/controller/fluxsand.hpp:132-136 | the target count equals 128 less the truncated real quotient 128 * remaining / maximum, clamped to 0..128 |
| Application.TruncUnique | src/controller/fluxsand.hpp:133 | truncation of a non-negative real gives the whole number just below it |
| Application.TargetCountProgress | src/controller/fluxsand.hpp:132-136 | the lower half's target grows as the timer runs down: 0 for a full timer, 128 for an expired one, never less for less time left |
| Application.BuzzAsWrittenNever | src/controller/fluxsand.hpp:118-124 | the buzzer test as written never holds once GetRemainingTimerSeconds has run |
| Application.BuzzOnce | src/controller/fluxsand.hpp:118-124 | the corrected test sounds exactly on the pass where a running timer runs out, reports zero then, and stays silent on later passes |
| Application.DropGrain | src/controller/fluxsand.hpp:139-142 | a grain moves from the upper to the lower half exactly when the lower half holds fewer than the target; otherwise both grids are unchanged |
| Application.FluxSand.constructor | src/controller/fluxsand.hpp:29-69 | a fresh mode manager in TIME mode, portrait, nothing running, beside the given GUI |
| Application.FluxSand.StartStopwatch | src/controller/fluxsand.hpp:160 | a stopped stopwatch starts now in STOPWATCH mode; a running one is left alone |
| Application.FluxSand.StopStopwatch | src/controller/fluxsand.hpp:161 | the stopwatch is stopped with its stored seconds cleared |
| Application.FluxSand.ToggleStopwatch | src/controller/fluxsand.hpp:62-67 | the stopwatch's running flag flips; starting records now and selects STOPWATCH |
| Application.FluxSand.StartTimer | src/controller/fluxsand.hpp:164-167 | the timer runs from now for the given duration, the mode becomes TIMER and a refill of the hourglass is requested |
| Application.FluxSand.StopTimer | src/controller/fluxsand.hpp:168 | the timer is stopped and its duration cleared |
| Application.FluxSand.RunStopwatch | src/controller/fluxsand.hpp:108-114 | the screen is the landscape clock showing the capped stopwatch seconds as minutes and seconds |
| Application.FluxSand.CheckTimer | src/controller/fluxsand.hpp:118-124 | with the corrected buzzer test of the Findings row: the remaining seconds are read, the timer turns off once expired, and the note and sand stop happen exactly when a running timer has just run out |
| Application.FluxSand.CheckTimerAsWritten | src/controller/fluxsand.hpp:118-124 | the test as written, after the getter: the remaining seconds are read and the timer turns off once expired, but the note and sand-stop test never holds |
| Application.FluxSand.FlowSand | src/controller/fluxsand.hpp:131-142 | the sand is switched on and one grain falls exactly when the lower half holds fewer than the target count |
| Application.FluxSand.ShowTimerLandscape | src/controller/fluxsand.hpp:126-128 | in landscape the screen is the landscape timer with the minutes and seconds left |
| Application.FluxSand.ShowTimerPortrait | src/controller/fluxsand.hpp:143-146 | upright with the timer off the screen is the portrait timer with the minutes and seconds left |
| Application.FluxSand.ShowTimerFlowing | src/controller/fluxsand.hpp:129-142 | upright while the timer runs the screen stays, the sand is on and the grains follow the target count |
| Application.FluxSand.ShowTimer | src/controller/fluxsand.hpp:126-146 | the TIMER screen is the one TimerShown describes for the orientation and whether the timer runs |
| Application.FluxSand.RunTimer | src/controller/fluxsand.hpp:116-148 | with the corrected buzzer test: the timer is read and expired, the note sounds when a running timer has just run out, and the screen is the one TimerShown describes with the sand stopped then |
| Application.FluxSand.ShowTime | src/controller/fluxsand.hpp:88-94 | the screen is the landscape or portrait clock for the hour and minute, as the orientation says |
| Application.FluxSand.ShowSensor | src/controller/fluxsand.hpp:96-106 | the screen is the humidity or temperature icon with its reading |
| Application.FluxSand.ShowStopwatch | src/controller/fluxsand.hpp:108-114 | the screen is the one ScreenShown gives for STOPWATCH |
| Application.FluxSand.RunScreen | src/controller/fluxsand.hpp:87-114 | outside TIMER, the screen is the one ScreenShown gives for the mode |
| Application.FluxSand.Run | src/controller/fluxsand.hpp:72-156 | one pass shows the mode's screen; outside TIMER the timer, sand and grids are untouched and no note plays; in TIMER, with the corrected buzzer test, the note, timer state and screen are as CheckTimer and TimerShown say |
| SandModel.Set | src/component/comp_sand.hpp:22-24 | writing a cell sets exactly that cell when it is inside the grid, and changes nothing outside it |
| SandModel.EmptyGrid | src/component/comp_sand.hpp:156-160 | the cleared grid is 16x16 with no grain in any cell |
| SandModel.CountBounds | src/component/comp_sand.hpp:162-170 | a grid holds at most 256 grains, and the empty grid none |
| SandModel.CountSet | src/component/comp_sand.hpp:162-170 | writing one cell changes the count by exactly that cell's change |
| SandModel.CenterOutStep | src/component/comp_sand.hpp:91-96 | one offset step lists the column left of the centre and then the one right of it, each only while it is on the grid |
| SandModel.ColumnRank | src/component/comp_sand.hpp:88-97 | every column is listed in a row of the traversal |
| SandModel.ColumnRankInverse | src/component/comp_sand.hpp:88-97 | the position of a column in a row of the traversal is unique |
| SandModel.CenterOutOrder | src/component/comp_sand.hpp:89-96 | the row order is the centre column 8, then 7, 9, 6, 10, and so on out to 0 and 15 |
| SandModel.Traversal | src/component/comp_sand.hpp:88-97 | every step of the traversal is a cell of the grid |
| SandModel.TraversalIndex | src/component/comp_sand.hpp:88-97 | every cell of the grid is visited at some step |
| SandModel.TraversalBijective | src/component/comp_sand.hpp:88-97 | the traversal visits every cell exactly once, bottom row first, never going back to a lower row |
| SandModel.OfferStep | src/component/comp_sand.hpp:40-47 | one step of the neighbour loops lists the neighbour exactly when it is not the cell itself, is on the grid and is empty |
| SandModel.CandidatesSound | src/component/comp_sand.hpp:37-52 | every candidate is an empty cell next to a grain |
| SandModel.CandidatesComplete | src/component/comp_sand.hpp:37-52 | every empty cell next to a grain is a candidate |
| SandModel.CandidatesExact | src/component/comp_sand.hpp:37-54 | the candidates are exactly the empty cells next to a grain, so the call fails only when there are none |
| SandModel.DirectionsAdjacent | src/component/comp_sand.hpp:72-74 | each of the eight directions leads to an adjacent cell |
| SandModel.BestIsArgmax | src/component/comp_sand.hpp:106-132 | the search finds nothing or an open direction above the threshold whose dot product is the largest among the open directions above the threshold |
| SandModel.DecisionStep | src/component/comp_sand.hpp:100-143 | a visited grain queues the move its search found, when that beats -1 and no earlier move targets the same cell |
| SandModel.TargetedAll | src/component/comp_sand.hpp:139-141 | after a move is queued its target counts as taken, and nothing else does |
| SandModel.DecisionDisjoint | src/component/comp_sand.hpp:99-144 | the queued moves each take a grain to an adjacent empty cell, and no two share a source or a target |
| SandModel.ApplyMoveEffect | src/component/comp_sand.hpp:147-150 | one move empties its source and fills its target, keeping the grain count |
| SandModel.ApplyAllEffect | src/component/comp_sand.hpp:146-150 | after non-interfering moves, a cell is full iff it was full and no grain left it, or a grain arrived; the count is unchanged |
| SandModel.StepConservesSand | src/component/comp_sand.hpp:61-154 | one simulation step keeps the number of grains, and its moves never interfere |
| SandModel.RowCells | src/component/comp_sand.hpp:90-95 | the cells of a row, in the given column order |
| SandModel.SandGrid.Model | src/component/comp_sand.hpp:253 | the grid's 16x16 cells as a value |
| SandModel.SandGrid.constructor | src/component/comp_sand.hpp:253 | a new grid holds no sand |
| SandModel.SandGrid.GetCell | src/component/comp_sand.hpp:18-20 | returns the cell, and false outside the grid |
| SandModel.SandGrid.SetCell | src/component/comp_sand.hpp:22-24 | the grid becomes Set of the old one: one cell changes, when it is on the grid |
| SandModel.SandGrid.AddNewSand | src/component/comp_sand.hpp:26-33 | fills cell (15, 15) and reports success exactly when that cell was empty; the count rises by one then |
| SandModel.SandGrid.AddGrainNearExisting | src/component/comp_sand.hpp:35-59 | succeeds exactly when some empty cell is next to a grain, then fills the drawn candidate and adds one grain; otherwise nothing changes |
| SandModel.SandGrid.CollectCandidates | src/component/comp_sand.hpp:37-52 | the loops build exactly the candidate list |
| SandModel.SandGrid.CollectRow | src/component/comp_sand.hpp:38-51 | the column loop lists the empty neighbours of each grain of one row, in order |
| SandModel.SandGrid.EmptyNeighbours | src/component/comp_sand.hpp:40-49 | the loops over dr and dc list the empty neighbours of a cell, in the loops' order |
| SandModel.SandGrid.EmptyNeighboursAt | src/component/comp_sand.hpp:41-48 | the dc loop for one dr appends that row's empty neighbours |
| SandModel.SandGrid.OfferNeighbour | src/component/comp_sand.hpp:42-47 | one pass of the loop body appends the neighbour when it is an empty cell of the grid |
| SandModel.SandGrid.StepOnce | src/component/comp_sand.hpp:61-154 | the grid becomes the old grid with the decided moves applied, and keeps its grain count |
| SandModel.SandGrid.DecideMoves | src/component/comp_sand.hpp:99-144 | the decision pass queues exactly the moves Decision gives, leaving the grid untouched |
| SandModel.SandGrid.DecideCell | src/component/comp_sand.hpp:100-143 | one visited cell extends the queue as DecisionUpTo says, and the occupied table marks exactly the queued targets |
| SandModel.SandGrid.BestDirection | src/component/comp_sand.hpp:106-132 | the direction loop computes BestUpTo over all eight directions |
| SandModel.SandGrid.ApplyMoves | src/component/comp_sand.hpp:146-150 | the grid becomes the old grid with the moves applied in order |
| SandModel.SandGrid.Clear | src/component/comp_sand.hpp:156-160 | the grid becomes empty |
| SandModel.SandGrid.Count | src/component/comp_sand.hpp:162-170 | returns the number of grains, between 0 and 256 |
| SandModel.SandGrid.TraversalOrder | src/component/comp_sand.hpp:87-97 | the traversal list has 256 cells, the i-th being Traversal(i) |
| SandModel.SandGrid.TraversalRow | src/component/comp_sand.hpp:89-96 | one row's cells in centre-out column order |
| SandModel.SandGrid.MoveSand | src/component/comp_sand.hpp:172-187 | with gravity down, a grain passes from the upper grid's (0, 0) to the lower grid's (15, 15) when the source is full and the target empty, otherwise the other way; nothing else changes and the total is kept |
| Gui.RegionIndex | src/component/comp_gui.hpp:140-145 | each of the four regions selects one of the four entries of the offset table |
| Gui.FontWellFormed | src/component/comp_gui.hpp:126-137 | the font has ten glyphs, each seven rows of five characters that are all '0' or '1' |
| Gui.RotateInverse | src/component/comp_gui.hpp:172-195 | the 45-degree transform is injective: a logical point maps to (row, col) exactly when the inverse transform maps (row, col) back to that point |
| Gui.PlotValue | src/component/comp_gui.hpp:172-200 | plotting keeps the framebuffer eight chips of eight bytes |
| Gui.PlotEffect | src/component/comp_gui.hpp:172-200 | a plot sets exactly the matrix pixel the transform lands on, when it lies on the 16x32 matrix, and leaves every other pixel as it was |
| Gui.RowValue | src/component/comp_gui.hpp:157-161 | plotting part of a glyph row keeps the framebuffer's shape |
| Gui.GlyphRow | src/component/comp_gui.hpp:156-158 | logical row dy of a glyph is bitmap row 6 - dy, five characters wide |
| Gui.DigitRows | src/component/comp_gui.hpp:156-162 | plotting the lower rows of a glyph keeps the framebuffer's shape |
| Gui.DigitValue | src/component/comp_gui.hpp:154-163 | drawing a glyph keeps the framebuffer's shape |
| Gui.CellOfRotate | src/component/comp_gui.hpp:172-195 | the glyph cell found for a matrix position is exactly the cell whose transform lands there |
| Gui.RowStep | src/component/comp_gui.hpp:157-160 | plotting one more cell of a row adds its matrix pixel when the cell is '1' and changes nothing else |
| Gui.RowPixels | src/component/comp_gui.hpp:157-161 | after part of a row is plotted, a matrix pixel is lit iff it was lit before or its logical cell is a lit cell of that part |
| Gui.InRowStep | src/component/comp_gui.hpp:157-160 | the lit cells left of x are those left of x - 1 plus cell x - 1 when it is '1' |
| Gui.RowsPixels | src/component/comp_gui.hpp:156-162 | after the lower rows are plotted, a matrix pixel is lit iff it was lit or its logical cell is a lit cell of those rows |
| Gui.DigitPixels | src/component/comp_gui.hpp:154-163 | drawing a digit only turns pixels on, and lights exactly the matrix pixels whose logical glyph cell is '1' |
| Gui.CoversInRows | src/component/comp_gui.hpp:156-162 | a glyph covers a matrix pixel iff the pixel's logical point is a lit cell of one of its seven rows |
| Gui.Digits | src/component/comp_gui.hpp:47-54 | Draw shows the value's tens and ones digits, each below ten, which together give the value modulo 100 |
| Gui.TensGlyph | src/component/comp_gui.hpp:47-54 | the tens digit is drawn with a well-formed font glyph |
| Gui.OnesGlyph | src/component/comp_gui.hpp:47-54 | the ones digit is drawn with a well-formed font glyph |
| Gui.DrawValue | src/component/comp_gui.hpp:47-54 | drawing a number keeps the framebuffer's shape |
| Gui.PairValue | src/component/comp_gui.hpp:50-53 | drawing two glyphs side by side keeps the framebuffer's shape |
| Gui.PairPixels | src/component/comp_gui.hpp:50-53 | two glyphs five columns apart light the old pixels plus exactly those either glyph covers |
| Gui.DrawPixels | src/component/comp_gui.hpp:47-54 | Draw lights the old pixels plus exactly those of the tens glyph at the region's offset and of the ones glyph five to its right |
| Gui.ChipPixel | src/device/max7219.hpp:94-103 | every chip pixel is the matrix pixel at its chip's origin on the 16x32 matrix |
| Gui.BlockRow | src/component/comp_gui.hpp:318-320 | copying part of a bitmap row keeps the framebuffer's shape |
| Gui.Block | src/component/comp_gui.hpp:317-321 | copying part of an 8x8 block keeps the framebuffer's shape |
| Gui.BlockOf | src/component/comp_gui.hpp:315-319 | block b of the four is (i, j) with b = 2i + j |
| Gui.Blit | src/component/comp_gui.hpp:315-323 | copying some of the four blocks keeps the framebuffer's shape |
| Gui.BlockRowPixels | src/component/comp_gui.hpp:318-320 | after l pixels of row k, those pixels of the chip show the bitmap cells and every other pixel is unchanged |
| Gui.BlockPixels | src/component/comp_gui.hpp:317-321 | after k rows of a block, rows below k of the chip show the block and every other pixel is unchanged |
| Gui.BlitStep | src/component/comp_gui.hpp:315-323 | copying one more block changes exactly its own chip |
| Gui.BlitPixels | src/component/comp_gui.hpp:315-323 | after b blocks, chip base + 2i + j pixel (r, q) shows bitmap cell (r + 8i, q + 8j); other chips are unchanged |
| Gui.Bitmap | src/component/comp_gui.hpp:294-311 | the icon as a 16x16 grid whose cells are exactly the '1' characters of its rows |
| Gui.IconsShaped | src/component/comp_gui.hpp:294-346 | the humidity and temperature icons are 16 rows of 16 cells |
| Gui.Dots | src/component/comp_gui.hpp:211-212 | switching on a list of pixels keeps the framebuffer's shape |
| Gui.DotsSnoc | src/component/comp_gui.hpp:239-255 | the pixels are switched on one after the other, in the listed order |
| Gui.DotsPixels | src/component/comp_gui.hpp:239-255 | the listed pixels are lit in addition to the old ones, and nothing else changes |
| Gui.TwoNumbers | src/component/comp_gui.hpp:207-216 | a clock screen is eight chips of eight bytes |
| Gui.TwoNumbersPixels | src/component/comp_gui.hpp:207-291 | a clock screen lights exactly its fixed pixels and the pixels of its two numbers |
| Gui.TimeLandscapeFrame | src/component/comp_gui.hpp:207-216 | the landscape clock screen is a full framebuffer |
| Gui.TimeLandscapeMSFrame | src/component/comp_gui.hpp:219-230 | the landscape timer screen is a full framebuffer |
| Gui.TimePortraitFrame | src/component/comp_gui.hpp:233-260 | the portrait clock screen is a full framebuffer |
| Gui.TimePortraitMSFrame | src/component/comp_gui.hpp:263-291 | the portrait timer screen is a full framebuffer |
| Gui.LandscapeColonFree | src/component/comp_gui.hpp:172-212 | no digit drawn in landscape can light either colon position |
| Gui.LandscapeColonAt | src/component/comp_gui.hpp:211-212 | the colon's two chip pixels are matrix positions (15, 12) and (12, 15) and no others |
| Gui.LandscapeColonBlinks | src/component/comp_gui.hpp:211-226 | the timer's colon is lit exactly in odd seconds, whatever the numbers; the clock's colon is always lit |
| Gui.ListedLit | src/component/comp_gui.hpp:233-291 | each fixed pixel of a clock screen is lit, whatever numbers are drawn |
| Gui.PortraitColonLit | src/component/comp_gui.hpp:239-255 | the portrait clock's colon pixels are lit at every time |
| Gui.PortraitSeparatorLit | src/component/comp_gui.hpp:268-286 | the portrait timer shows the odd separator in odd seconds and the even one otherwise |
| Gui.IconFrame | src/component/comp_gui.hpp:293-326 | an icon screen is a full framebuffer |
| Gui.LowerScreenColumns | src/component/comp_gui.hpp:172-183 | digits on the lower portrait screen never reach matrix column 16 or beyond |
| Gui.DrawChipPixel | src/component/comp_gui.hpp:47-54 | after Draw a chip pixel is lit iff it was lit or the number covers its matrix position |
| Gui.IconBlocks | src/component/comp_gui.hpp:315-323 | the icon alone puts its four blocks on chips 4 to 7 and leaves chips 0 to 3 dark |
| Gui.IconUpperChips | src/component/comp_gui.hpp:315-324 | the number drawn after the icon does not touch chips 4 to 7 |
| Gui.IconLowerChips | src/component/comp_gui.hpp:315-324 | chips 0 to 3 of an icon screen are lit exactly where the value's digits are |
| Gui.IconPixels | src/component/comp_gui.hpp:293-361 | on the humidity and temperature screens chips 4 to 7 show the icon unchanged and chips 0 to 3 show exactly the value's digits |
| Gui.HourglassFrame | src/component/comp_gui.hpp:363-388 | the hourglass screen is a full framebuffer |
| Gui.HourglassPixels | src/component/comp_gui.hpp:366-386 | every chip pixel of the hourglass shows one grid cell: block 2i + j of the upper grid on chip 4 + 2i + j, of the lower grid on chip 2i + j |
| Gui.HourglassCells | src/component/comp_gui.hpp:366-386 | every cell of either grid is shown by its own chip pixel |
| Gui.CompGui.constructor | src/component/comp_gui.hpp:33-37 | keeps the display and orientation; both sand grids start empty, the sand is off and no reset is pending |
| Gui.CompGui.SetOrientation | src/component/comp_gui.hpp:40 | the orientation becomes the given one |
| Gui.CompGui.SandEnable | src/component/comp_gui.hpp:74 | the sand animation is switched on |
| Gui.CompGui.SandDisable | src/component/comp_gui.hpp:77 | the sand animation is switched off |
| Gui.CompGui.Reset | src/component/comp_gui.hpp:391 | a refill of the hourglass is requested |
| Gui.CompGui.Clear | src/component/comp_gui.hpp:57 | the whole framebuffer is dark afterwards |
| Gui.CompGui.SetLight | src/component/comp_gui.hpp:204 | exactly one intensity frame, the level limited to 15, is sent to the chips |
| Gui.CompGui.PlotRotated45 | src/component/comp_gui.hpp:172-200 | the framebuffer changes as PlotValue says: one matrix pixel at most |
| Gui.CompGui.DrawDigit | src/component/comp_gui.hpp:154-163 | the framebuffer becomes DigitValue of the old one, which lights exactly the glyph's cells |
| Gui.CompGui.DrawDigitRow | src/component/comp_gui.hpp:157-161 | one row of five cells is plotted, left to right |
| Gui.CompGui.Draw | src/component/comp_gui.hpp:47-54 | the framebuffer becomes DrawValue of the old one: the tens and ones glyphs at the region's offset |
| Gui.CompGui.DrawDots | src/component/comp_gui.hpp:239-255 | the listed pixels are switched on in order |
| Gui.CompGui.RenderTwo | src/component/comp_gui.hpp:207-216 | a cleared screen in the given orientation with the fixed pixels and two numbers |
| Gui.CompGui.RenderTimeLandscape | src/component/comp_gui.hpp:207-216 | the orientation becomes landscape and the screen is the landscape clock |
| Gui.CompGui.RenderTimeLandscapeMS | src/component/comp_gui.hpp:219-230 | the orientation becomes landscape and the screen is the landscape timer, colon only in odd seconds |
| Gui.CompGui.RenderTimePortrait | src/component/comp_gui.hpp:233-260 | the orientation becomes portrait and the screen is the portrait clock |
| Gui.CompGui.RenderTimePortraitMS | src/component/comp_gui.hpp:263-291 | the orientation becomes portrait and the screen is the portrait timer with the separator of the second's parity |
| Gui.CompGui.DrawBlockRow | src/component/comp_gui.hpp:318-320 | eight bitmap cells of one row go to one chip row |
| Gui.CompGui.DrawBlock | src/component/comp_gui.hpp:317-321 | one 8x8 block of the bitmap goes to one chip |
| Gui.CompGui.DrawBitmap | src/component/comp_gui.hpp:315-323 | the four blocks of the bitmap go to chips base + 2i + j |
| Gui.CompGui.RenderIcon | src/component/comp_gui.hpp:312-325 | clear, portrait, the icon on chips 4 to 7, then the value on the lower screen |
| Gui.CompGui.RenderHumidity | src/component/comp_gui.hpp:293-326 | the screen is the humidity icon with the humidity below it |
| Gui.CompGui.RenderTemperature | src/component/comp_gui.hpp:328-361 | the screen is the thermometer icon with the temperature below it |
| Gui.CompGui.DrawGridRow | src/component/comp_gui.hpp:368-372 | eight grid cells of one row go to one chip row |
| Gui.CompGui.DrawGridBlock | src/component/comp_gui.hpp:367-373 | one 8x8 block of a sand grid goes to one chip |
| Gui.CompGui.DrawGrid | src/component/comp_gui.hpp:366-375 | the four blocks of a sand grid go to chips base + 2i + j |
| Gui.CompGui.RenderHourglass | src/component/comp_gui.hpp:363-388 | the screen is cleared and shows the upper grid on chips 4 to 7 and the lower grid on chips 0 to 3 |
| Led.MaskBits | src/device/max7219.hpp:99-101 | or-ing in 1 << col sets bit col only, and-ing with its complement clears bit col only |
| Led.SetBitEffect | src/device/max7219.hpp:98-102 | the updated byte has bit col equal to `on` and its other seven bits unchanged |
| Led.DrawPixelValue | src/device/max7219.hpp:94-103 | the framebuffer stays one 8-byte array per chip |
| Led.DrawPixelEffect | src/device/max7219.hpp:94-103 | out-of-range addresses change nothing; otherwise exactly the addressed pixel (bit col of byte 7 - row) becomes `on` and every other pixel is unchanged |
| Led.Blank | src/device/max7219.hpp:84-88 | the cleared framebuffer has the shape of the chain |
| Led.BlankDark | src/device/max7219.hpp:84-88 | every pixel of the cleared framebuffer is dark |
| Led.SlotIndex | src/device/max7219.hpp:113-118 | on the 16x32 matrix the index map amounts to a table of eight chips that swaps chips 1 and 2 of each group of four |
| Led.SlotInvolution | src/device/max7219.hpp:113 | that table is its own inverse |
| Led.MatrixForward | src/device/max7219.hpp:107-123 | every position of the 16x32 matrix lands on one of the eight chips, and distinct positions on distinct chip pixels |
| Led.MatrixBackward | src/device/max7219.hpp:107-123 | every pixel of every one of the eight chips is addressed by some matrix position |
| Led.DrawMatrixValue | src/device/max7219.hpp:107-123 | the framebuffer stays one 8-byte array per chip |
| Led.DrawMatrixEffect | src/device/max7219.hpp:107-123 | out-of-range positions change nothing; otherwise exactly the addressed composite pixel becomes `on` |
| Led.TxFrame | src/device/max7219.hpp:243 | the frame has two bytes per chip |
| Led.TxFrameSlots | src/device/max7219.hpp:244-248 | pair i of the frame is chip N-1-i's register and data: the last chip's data goes first |
| Led.Fill | src/device/max7219.hpp:229-233 | one value per chip |
| Led.ChipFrameSlots | src/device/max7219.hpp:141-152 | only chip index's slot carries the write; every other slot carries NOOP with data 0 |
| Led.Column | src/device/max7219.hpp:132-134 | slot i holds chip i's byte for the row |
| Led.RefreshFrames | src/device/max7219.hpp:126-138 | Refresh sends eight frames |
| Led.RefreshSlots | src/device/max7219.hpp:128-135 | the frame for row r addresses DIGIT0 + r of every chip, with each chip's own framebuffer byte |
| Led.InitFrames | src/device/max7219.hpp:60-68 | six register writes per chip |
| Led.InitFramesOrder | src/device/max7219.hpp:60-68 | each chip enters shutdown first, gets intensity 3, and leaves shutdown last |
| Led.Max7219.Frame | src/device/max7219.hpp:222 | the framebuffer has the shape of the chain |
| Led.Max7219.constructor | src/device/max7219.hpp:33-47 | a cleared framebuffer and nothing sent |
| Led.Max7219.Clear | src/device/max7219.hpp:84-88 | every framebuffer byte is 0 |
| Led.Max7219.UpdateBit | src/device/max7219.hpp:98-102 | bit col gets the requested state and the other seven bits keep theirs |
| Led.Max7219.DrawPixel | src/device/max7219.hpp:94-103 | the framebuffer becomes DrawPixelValue of the old one; nothing else changes |
| Led.Max7219.DrawPixelMatrix2 | src/device/max7219.hpp:107-123 | the framebuffer becomes DrawMatrixValue of the old one |
| Led.Max7219.WriteCommandRaw | src/device/max7219.hpp:241-248 | exactly one frame is sent: the pairs of the chips in reverse order |
| Led.Max7219.WriteToChip | src/device/max7219.hpp:141-152 | nothing is sent for index >= N, otherwise the one frame addressed to that chip alone |
| Led.Max7219.WriteCommand | src/device/max7219.hpp:234-238 | one frame with the same register for every chip |
| Led.Max7219.WriteAll | src/device/max7219.hpp:227-231 | one frame with the same register and value for every chip |
| Led.Max7219.SetIntensity | src/device/max7219.hpp:74-81 | min(value, 15) goes to the intensity register of every chip |
| Led.Max7219.Refresh | src/device/max7219.hpp:126-138 | the eight row frames of the current framebuffer are sent |
| Led.Max7219.InitializeChip | src/device/max7219.hpp:61-67 | the six configuration writes of one chip, in order |
| Led.Max7219.InitializeChips | src/device/max7219.hpp:60-68 | the configuration writes of chips 0 to N-1, chip after chip |
| Led.Max7219.Initialize | src/device/max7219.hpp:59-71 | the configuration writes, then a blank framebuffer refreshed to every chip |
| Led.Max7219.SetLight | src/device/max7219.hpp:214-216 | the same as SetIntensity |
| Inference.Code | src/component/comp_inference.hpp:25-37 | the int8_t values run from -1 to 9, and -1 is UNRECOGNIZED alone |
| Inference.FromIndex | src/component/comp_inference.hpp:295 | the cast of a class index 0..9 is the category with that value |
| Inference.CodeInjective | src/component/comp_inference.hpp:25-37 | no two categories share a value |
| Inference.OrderPosition | src/component/comp_inference.hpp:301-308 | the map's iteration order lists each category once, in increasing value |
| Inference.LabelsTotal | src/component/comp_inference.hpp:40-51 | every one of the 11 categories has a label, and the labels are distinct |
| Inference.FirstMax | src/component/comp_inference.hpp:286-287 | max_element picks an index holding the largest probability, with every earlier one strictly smaller |
| Inference.ClassifyMeaning | src/component/comp_inference.hpp:285-292 | the prediction is UNRECOGNIZED exactly when every probability is below the threshold, and class i exactly when i is the first maximum and reaches the threshold |
| Inference.PluralityUnique | src/component/comp_inference.hpp:306-308 | at most one category wins the vote |
| Inference.LeaderUpToProperties | src/component/comp_inference.hpp:306-308 | the scan over the first k categories keeps the largest count and the first category reaching it |
| Inference.LeaderIsPlurality | src/component/comp_inference.hpp:301-308 | a non-empty history has a winner, with the most votes and ties going to the smallest value |
| Inference.DecideMeaning | src/component/comp_inference.hpp:311-313 | the result is the winner when it has at least min_consensus_votes votes, UNRECOGNIZED otherwise |
| Inference.CountPair | src/component/comp_inference.hpp:301-304 | two distinct categories together have at most as many votes as there are predictions |
| Inference.MajorityWins | src/component/comp_inference.hpp:301-313 | a category predicted more than half the time is the result whenever it has enough votes |
| Inference.Pushed | src/component/comp_inference.hpp:295-298 | the newest prediction is last, at most the oldest is dropped, and the bound on the history is kept |
| Inference.Window | src/component/comp_inference.hpp:256-258 | the buffer keeps its newest values and at most input_tensor_size_ of them |
| Inference.Features | src/component/comp_inference.hpp:246-253 | one sample contributes eight features: pitch, roll, the gyroscope and the acceleration in g |
| Inference.CounterClimbs | src/component/comp_inference.hpp:175-176 | the counter climbs by one per sample from 0 and never passes new_data_number_ |
| Inference.CounterPeriodic | src/component/comp_inference.hpp:175-176 | the counter repeats every new_data_number_ + 1 samples, firing once per period |
| Inference.InferenceEngine.constructor | src/component/comp_inference.hpp:65-127 | empty buffers, counter 0, no callback, and new_data_number_ the truncated product of the second input dimension and the update ratio |
| Inference.InferenceEngine.RegisterDataCallback | src/component/comp_inference.hpp:203-205 | a callback is registered |
| Inference.InferenceEngine.OnData | src/component/comp_inference.hpp:195-201 | the newest readings are stored |
| Inference.InferenceEngine.CollectSensorData | src/component/comp_inference.hpp:244-259 | the buffer becomes the newest input_tensor_size_ values of the old buffer followed by the eight new ones |
| Inference.InferenceEngine.CountVotes | src/component/comp_inference.hpp:301-304 | the votes map holds exactly the predicted categories, each with its number of occurrences |
| Inference.InferenceEngine.Consensus | src/component/comp_inference.hpp:306-308 | the max_element over the ordered map is the history's leader and its count |
| Inference.InferenceEngine.RunInference | src/component/comp_inference.hpp:266-316 | the thresholded argmax is pushed onto the bounded history and the result is the vote over the new history |
| Inference.InferenceEngine.InferenceStep | src/component/comp_inference.hpp:170-191 | one task iteration: the window is updated, the network runs only on a firing sample with a full window and on the window's first input_tensor_size_ values, and the callback gets the result only when it is a gesture different from the last one reported |
| Inference.InferenceEngine.Tick | src/component/comp_inference.hpp:175-191 | the post-incremented counter resets when it fires, and an inference happens only then with a full window |
| Inference.InferenceEngine.Report | src/component/comp_inference.hpp:182-189 | last_result and the callback change only for a gesture that differs from the last one |
| CycleValues.FModTwoPi | src/component/comp_type.hpp:27 | fmodf by 2π: within one turn of 0, with the sign of its argument, and a whole number of turns from it |
| CycleValues.Calculate | src/component/comp_type.hpp:26-32 | the result lies in [0, 2π) and differs from the input by a whole number of turns |
| CycleValues.CalculateNormal | src/component/comp_type.hpp:26-32 | a value already in [0, 2π) is returned unchanged |
| CycleValues.CalculateCongruent | src/component/comp_type.hpp:26-32 | two inputs normalize to the same value exactly when they differ by whole turns |
| CycleValues.CalculateIdempotent | src/component/comp_type.hpp:26-32 | normalizing twice is normalizing once |
| CycleValues.Wrap | src/component/comp_type.hpp:141-147 | the signed difference lies in [-π, π) and differs from the raw difference by whole turns |
| CycleValues.WrapNormal | src/component/comp_type.hpp:141-147 | a difference already in [-π, π) is returned unchanged |
| CycleValues.WrapExample | src/component/comp_type.hpp:178-189 | 359 degrees minus 1 degree is -2 degrees |
| CycleValues.NegateProperties | src/component/comp_type.hpp:196 | -0 is 0, v plus its negation is a whole number of turns, and negating twice gives v back |
| CycleValues.CycleValue.FromReal | src/component/comp_type.hpp:39-47 | the float and double constructors store the normalized number |
| CycleValues.CycleValue.constructor | src/component/comp_type.hpp:67 | the default constructor stores 0 |
| CycleValues.CycleValue.Copy | src/component/comp_type.hpp:54-62 | the wrap loops terminate with the normalized value, which is the other's value when that was already normalized |
| CycleValues.CycleValue.Plus | src/component/comp_type.hpp:75-87 | a new value holding the normalized sum |
| CycleValues.CycleValue.PlusCycle | src/component/comp_type.hpp:95-97 | a new value holding the normalized sum of the two angles |
| CycleValues.CycleValue.AddAssign | src/component/comp_type.hpp:105-119 | the stored value becomes the normalized sum |
| CycleValues.CycleValue.AddAssignCycle | src/component/comp_type.hpp:127-130 | the stored value becomes the normalized sum, also when the other operand is this object |
| CycleValues.CycleValue.Minus | src/component/comp_type.hpp:138-170 | the difference to the normalized number, in [-π, π) and whole turns from the raw difference |
| CycleValues.CycleValue.MinusCycle | src/component/comp_type.hpp:178-189 | the difference of two angles, in [-π, π) and whole turns from the raw difference |
| CycleValues.CycleValue.WrapDifference | src/component/comp_type.hpp:141-147 | the two loops terminate and leave the unique value of [-π, π) congruent to the difference |
| CycleValues.CycleValue.Negate | src/component/comp_type.hpp:196 | a new value holding 2π minus the angle, normalized |
| CycleValues.CycleValue.Value | src/component/comp_type.hpp:203-232 | a value set through the class lies in [0, 2π) |
| CycleValues.CycleValue.Assign | src/component/comp_type.hpp:211-225 | assignment from a number stores the normalized number |
| CycleValues.CycleValue.AssignCycle | src/component/comp_type.hpp:18 | the default copy assignment copies the stored value as it is |
| Sensors.SumAppend | src/controller/sensor_manager.hpp:55-56 | summing one more reading adds it to the total |
| Sensors.SumAtLeast | src/controller/sensor_manager.hpp:55-56 | a sum of n readings no smaller than lo is at least n * lo |
| Sensors.SumBelow | src/controller/sensor_manager.hpp:55-56 | a sum of n readings below hi is at most n * hi, strictly below when there is a reading |
| Sensors.MeanAtLeast | src/controller/sensor_manager.hpp:55-58 | the average of readings no smaller than lo is no smaller than lo, so the smoothed light of non-negative readings is non-negative |
| Sensors.MeanBounds | src/controller/sensor_manager.hpp:55-58 | the average of readings in [lo, hi) is in [lo, hi), so with every reading below 5100 lux the brightness cast is defined |
| Sensors.Brightness | src/controller/sensor_manager.hpp:63 | the level sent is the truncation of light / 20 + 1, between 1 and 255 |
| Sensors.CounterCycle | src/controller/sensor_manager.hpp:61-65 | after k averages the counter is k modulo 6 |
| Sensors.PushEverySixth | src/controller/sensor_manager.hpp:61-65 | the brightness goes to the GUI at the k-th average exactly when k is a multiple of six |
| Sensors.SensorManager.constructor | src/controller/sensor_manager.hpp:90-101 | no sensors or GUI yet, temperature and light 0, the queue empty and the counter 0 |
| Sensors.SensorManager.Init | src/controller/sensor_manager.hpp:18-41 | keeps the sensors and the GUI and registers the callbacks of channels 0 and 1, where those channels exist |
| Sensors.SensorManager.OnThermistor | src/controller/sensor_manager.hpp:24-38 | the stored temperature becomes the thermistor reading |
| Sensors.SensorManager.OnLight | src/controller/sensor_manager.hpp:41-70 | the reading goes to the front of the queue; once 51 are held the light becomes their average, the brightness goes to the GUI on every sixth average, and the oldest reading is dropped; any non-negative reading is accepted, and only the average pushed to a GUI must be below 5100 lux |
| Sensors.SensorManager.QueueSum | src/controller/sensor_manager.hpp:55-56 | the loop's total is the sum of the queue |
| Sensors.SensorManager.CountAverage | src/controller/sensor_manager.hpp:61-65 | the counter steps through 0..5, and when it wraps exactly one brightness frame goes to the GUI, if there is one; only that push needs the light below 5100 lux |
| Sensors.SensorManager.GetTemperature | src/controller/sensor_manager.hpp:74 | returns the stored thermistor temperature |
| Sensors.SensorManager.GetLight | src/controller/sensor_manager.hpp:77 | the smoothed light is non-negative, as its readings are |
| Sensors.SensorManager.GetHumidity | src/controller/sensor_manager.hpp:80 | the AHT20's humidity, or 0 without one |
| Sensors.SensorManager.GetCompensatedTemperature | src/controller/sensor_manager.hpp:83-85 | the AHT20's temperature, or 0 without one |
| Sensors.SensorManager.GetPressure | src/controller/sensor_manager.hpp:88 | 0 without a BMP280; otherwise a fresh reading, the compensated pressure in Pa from the answered bytes, with t_fine updated |
| Bmp280Driver.LittleEndianWords | src/device/bmp280.hpp:110-123 | word k of a calibration block is byte 2k+1 shifted up by 8 or-ed with byte 2k |
| Bmp280Driver.LittleEndianBytes | src/device/bmp280.hpp:110-123 | the inverse layout: each 16-bit word as two bytes, low byte first |
| Bmp280Driver.WordsRoundTrip | src/device/bmp280.hpp:110-123 | reading back the bytes of a word list gives the words |
| Bmp280Driver.BytesRoundTrip | src/device/bmp280.hpp:110-123 | every byte of an even-length block is kept by the word split |
| Bmp280Driver.FromWords | src/device/bmp280.hpp:110-123 | dig_T1 and dig_P1 are the unsigned words, the other ten the signed 16-bit reading of theirs |
| Bmp280Driver.ToWords | src/device/bmp280.hpp:86-90 | the trimming parameters as 16-bit register patterns |
| Bmp280Driver.DecodeCalibration | src/device/bmp280.hpp:105-124 | ReadCalibration always yields parameters of the declared uint16_t and int16_t widths |
| Bmp280Driver.EncodeCalibration | src/device/bmp280.hpp:105-124 | the 24-byte block holding given trimming parameters |
| Bmp280Driver.CalibrationRoundTrip | src/device/bmp280.hpp:105-124 | decoding recovers every trimming parameter, the negative ones included |
| Bmp280Driver.CalibrationBytesRoundTrip | src/device/bmp280.hpp:105-124 | decoding loses no byte of the calibration block |
| Bmp280Driver.RawReading | src/device/bmp280.hpp:130-138 | (b0 << 12) or (b1 << 4) or (b2 >> 4) is a 20-bit value |
| Bmp280Driver.DeltaSquareFits | src/device/bmp280.hpp:147-148 | the squared term of var2 fits int32_t exactly when the delta is at most 46340 in magnitude |
| Bmp280Driver.TFine | src/device/bmp280.hpp:143-153 | when the int32_t products are defined, t_fine is bounded and t_fine * 5 + 128 fits int32_t |
| Bmp280Driver.CentiCelsius | src/device/bmp280.hpp:154 | the arithmetic shift by 8 rounds t_fine * 5 / 256 half up |
| Bmp280Driver.CompensatePressure | src/device/bmp280.hpp:158-181 | the result is a uint32_t, and 0 whenever the divisor var1 is 0 (no division by zero) |
| Bmp280Driver.DatasheetPressure | src/device/bmp280.hpp:179-180 | the datasheet's single cast to 32 bits, a uint32_t |
| Bmp280Driver.PressureMatchesDatasheet | src/device/bmp280.hpp:179-180 | casting the Q24.8 value before adding dig_P7 << 4 gives the same uint32_t as one cast of the sum |
| Bmp280Driver.ExampleTemperature | src/device/bmp280.hpp:142-155 | on the datasheet's worked example, t_fine is 128422 and the temperature 25.08 degrees |
| Bmp280Driver.ExamplePressure | src/device/bmp280.hpp:158-181 | on the same example the 64-bit compensation gives 25767233 / 256 Pa |
| Bmp280Driver.Bmp280.constructor | src/device/bmp280.hpp:41-42 | after a good id: the decoded calibration, t_fine 0, and the id, calibration and configuration traffic |
| Bmp280Driver.Bmp280.Open | src/device/bmp280.hpp:35-43 | there is a device exactly when the id register reads 0x58 |
| Bmp280Driver.Bmp280.Configure | src/device/bmp280.hpp:97-102 | writes ctrl_meas 0x27 and config 0x00 |
| Bmp280Driver.Bmp280.ReadRawTemperature | src/device/bmp280.hpp:127-132 | returns the 20-bit reading from 0xFA and caches it in adc_t |
| Bmp280Driver.Bmp280.ReadRawPressure | src/device/bmp280.hpp:135-139 | returns the 20-bit reading from 0xF7 and caches nothing |
| Bmp280Driver.Bmp280.CompensateTemperature | src/device/bmp280.hpp:142-155 | stores t_fine for the reading and returns it in hundredths of a degree |
| Bmp280Driver.Bmp280.ReadTemperature | src/device/bmp280.hpp:64-67 | a fresh raw temperature, its t_fine stored, returned in degrees with 0.01 resolution |
| Bmp280Driver.Bmp280.ReadPressure | src/device/bmp280.hpp:73-78 | t_fine is recomputed from a fresh temperature reading before the pressure is compensated; the result is in Pa |
| Aht20Driver.RawHumidity | src/device/aht20.hpp:99 | the humidity field is byte 1, byte 2 and the high nibble of byte 3, below 2^20 |
| Aht20Driver.RawTemperature | src/device/aht20.hpp:107 | the temperature field is the low nibble of byte 3, byte 4 and byte 5, below 2^20 |
| Aht20Driver.MeasurementBytes | src/device/aht20.hpp:99-107 | the five data bytes that carry a given pair of 20-bit fields |
| Aht20Driver.FieldsRoundTrip | src/device/aht20.hpp:99-107 | decoding the bytes that carry two fields gives back both fields |
| Aht20Driver.BytesRoundTrip | src/device/aht20.hpp:99-107 | the two fields determine all five bytes: byte 3 is split between them and no bit is lost |
| Aht20Driver.Humidity | src/device/aht20.hpp:100 | raw * 100 / 2^20 lies in [0, 100) and is 0 exactly for raw 0 |
| Aht20Driver.Temperature | src/device/aht20.hpp:108 | raw * 200 / 2^20 - 50 lies in [-50, 150) |
| Aht20Driver.ConversionsIncreasing | src/device/aht20.hpp:100-108 | both conversions are strictly increasing, hence injective |
| Aht20Driver.MeasurementMeaning | src/device/aht20.hpp:94-108 | a busy status byte leaves both readings alone; otherwise the temperature is always stored and the humidity exactly when its raw value is non-zero |
| Aht20Driver.Aht20.constructor | src/device/aht20.hpp:24-27 | readings start at 0 and the init sequence is the only bus traffic |
| Aht20Driver.Aht20.InitSensor | src/device/aht20.hpp:64-69 | writes 0x08 then 0x00 to register 0xBE |
| Aht20Driver.Aht20.ReadSensor | src/device/aht20.hpp:84-109 | sends 0xAC 0x33 0x00, reads from register 0, and updates the readings as AfterMeasurement says |
| Ads1115Driver.ConfigWord | src/device/ads1115.hpp:148-152 | the config word has MUX = 4 + channel (AINx against GND), PGA = 1 (+-4.096 V), continuous mode and data-rate code 7, and fits in 15 bits |
| Ads1115Driver.ConfigWordsDistinct | src/device/ads1115.hpp:149 | distinct channels get distinct config words |
| Ads1115Driver.ConfigFrame | src/device/ads1115.hpp:154-158 | the 3-byte config write is the config pointer followed by the word, high byte first |
| Ads1115Driver.ConfigureWrites | src/device/ads1115.hpp:143-146 | ConfigureChannel writes something exactly when the channel is 0..3 |
| Ads1115Driver.Conversion | src/device/ads1115.hpp:178 | the two conversion bytes, high first, read as a signed 16-bit value |
| Ads1115Driver.ConversionRoundTrip | src/device/ads1115.hpp:178 | every signed 16-bit reading is recovered from the bytes of its two's-complement pattern |
| Ads1115Driver.Voltage | src/device/ads1115.hpp:126-127 | a reading times 125 uV lies in [-4.096, 4.096) V and has the reading's sign |
| Ads1115Driver.ScanOrder | src/device/ads1115.hpp:135 | after k ready events the converter is on channel k mod CHANNEL_NUM: round robin |
| Ads1115Driver.Ads1115.constructor | src/device/ads1115.hpp:33-37 | writes the two threshold registers, then starts a scan at channel 0 with the interrupt on; all voltages 0 and no callbacks |
| Ads1115Driver.Ads1115.EnableReadyInterruptMode | src/device/ads1115.hpp:71-79 | writes Lo_thresh 0x0000 then Hi_thresh 0x8000, nothing else |
| Ads1115Driver.Ads1115.StartScan | src/device/ads1115.hpp:42-49 | scanning from channel 0, channel 0 configured, interrupt enabled |
| Ads1115Driver.Ads1115.Stop | src/device/ads1115.hpp:54 | scanning is off |
| Ads1115Driver.Ads1115.GetVoltage | src/device/ads1115.hpp:61-66 | the stored voltage of an existing channel, 0 for any other index |
| Ads1115Driver.Ads1115.RegisterChannelCallback | src/device/ads1115.hpp:96-100 | only an existing channel gets a callback; other indices change nothing |
| Ads1115Driver.Ads1115.ReadConversion | src/device/ads1115.hpp:171-179 | writes the conversion pointer, reads the register, returns the signed value of the bytes |
| Ads1115Driver.Ads1115.ConfigureChannel | src/device/ads1115.hpp:143-165 | the config frame then one discarded conversion read, and nothing for a channel outside 0..3 |
| Ads1115Driver.Ads1115.OnDataReady | src/device/ads1115.hpp:119-137 | when not scanning nothing changes; otherwise only the current channel's voltage is replaced, its callback (if any) gets that voltage, and the next channel mod CHANNEL_NUM is configured |
| Mpu9250Driver.ReadFrame | src/bsp/bsp_spi.hpp:107-113 | a burst read sends the register with the read flag set, then one dummy byte per byte read |
| Mpu9250Driver.SetupSelectsFullScale | src/device/mpu9250.hpp:177-181 | the set-up writes select the +-2000 degrees/s and +-16 g ranges that the scale factors assume |
| Mpu9250Driver.BigEndianWords | src/device/mpu9250.hpp:210-236 | word k of the burst is byte 2k shifted up by 8 or-ed with byte 2k+1 |
| Mpu9250Driver.BigEndianBytes | src/device/mpu9250.hpp:210-236 | the inverse layout: each 16-bit word as two bytes, high byte first |
| Mpu9250Driver.WordsRoundTrip | src/device/mpu9250.hpp:210-236 | reading back the bytes of a word list gives the words |
| Mpu9250Driver.BytesRoundTrip | src/device/mpu9250.hpp:210-236 | the word split of an even-length byte string loses no byte |
| Mpu9250Driver.DecodeBurst | src/device/mpu9250.hpp:206-236 | bytes 0-5 accelerometer, 6-7 temperature, 8-13 gyroscope, each a signed 16-bit value |
| Mpu9250Driver.EncodeBurst | src/device/mpu9250.hpp:206-236 | the 14-byte burst carrying given readings |
| Mpu9250Driver.BurstRoundTrip | src/device/mpu9250.hpp:206-236 | decoding recovers every signed reading |
| Mpu9250Driver.BurstBytesRoundTrip | src/device/mpu9250.hpp:206-236 | every one of the 14 bytes is part of exactly one reading |
| Mpu9250Driver.Acceleration | src/device/mpu9250.hpp:203-218 | an accelerometer reading scaled by ACCEL_SCALE lies within +-16 g |
| Mpu9250Driver.AngularRate | src/device/mpu9250.hpp:204-227 | a gyroscope reading scaled by GYRO_SCALE lies within +-2000 degrees/s in rad/s |
| Mpu9250Driver.DieTemperature | src/device/mpu9250.hpp:220-223 | raw / 333.87 + 21 lies in the range a signed 16-bit reading allows |
| Mpu9250Driver.Gyro | src/device/mpu9250.hpp:225-236 | the corrected gyroscope plus the bias is the scaled raw reading |
| Mpu9250Driver.GyroBiasShift | src/device/mpu9250.hpp:225-236 | changing the bias by delta shifts the corrected gyroscope by exactly -delta |
| Mpu9250Driver.LoadedBiasMeaning | src/device/mpu9250.hpp:289-333 | no file keeps the bias; a file of the wrong size, with a non-finite component, or any component above 1 in magnitude gives zero; otherwise the stored bias; a file always leaves a plausible bias |
| Mpu9250Driver.SaveLoadRoundTrip | src/device/mpu9250.hpp:275-324 | a saved plausible bias loads back unchanged, an implausible one loads as zero |
| Mpu9250Driver.TickMeaning | src/device/mpu9250.hpp:78-120 | a finished calibration never changes; a gyroscope delta above the limits restarts it; samples are summed between 5 and 30 s; it finishes after 35 s; the bias changes at most at that tick and every change is saved |
| Mpu9250Driver.TickCorrection | src/device/mpu9250.hpp:100-113 | when the mean offset exceeds 0.005 on some axis the bias moves by exactly that mean |
| Mpu9250Driver.Mpu9250.constructor | src/device/mpu9250.hpp:32-49 | after a recognised WHO_AM_I: zero readings, the loaded bias, an unstarted calibration, and exactly the probe and set-up frames sent |
| Mpu9250Driver.Mpu9250.Open | src/device/mpu9250.hpp:134-147 | there is a device exactly when WHO_AM_I is 0x71, 0x68 or 0x70 |
| Mpu9250Driver.Mpu9250.LoadCalibrationData | src/device/mpu9250.hpp:289-333 | the bias becomes LoadedBias of the old bias and the file |
| Mpu9250Driver.Mpu9250.ReadData | src/device/mpu9250.hpp:198-245 | the decoded readings are stored, gyro_delta is new gyro minus previous gyro, and one 14-byte burst read from 0x3B is sent |
| Mpu9250Driver.Mpu9250.CalibrationTick | src/device/mpu9250.hpp:78-124 | one inner-loop iteration changes the calibration state exactly as Tick says |

## Left out

- Threads, semaphores, sleeps and locks are not modelled: `CompGuiX::ThreadFun`, `Max7219::RefreshThread`, `Lock`/`Unlock`, and the sensor and inference thread loops. Where an operation is one iteration of such a loop, that iteration is modelled as a method.
- The `Max7219` constructor's chip self-test pattern is not modelled. It is a timed diagnostic that races with the refresh thread's `Initialize`.
- The Madgwick filter in src/component/comp_ahrs.hpp is not part of this model. It is single-precision numerics on its own thread.
- `CompGuiX::SetGravityDegree` is not modelled. It is float `fmodf` only, so the gravity angle is a field set by the caller.
- `PWM::PlayNote` is not modelled. The buzzer is reported as a boolean result of `Run`.
- The NTC logarithm and the photodiode power law in the sensor callbacks are float-only. Their results arrive as parameters.
- Sensors.Brightness requires a light level below 5100 lux. Above that, `light / 20 + 1` overflows the `uint8_t` cast.
- Sensors.SensorManager.OnLight and Sensors.SensorManager.CountAverage require the average below 5100 lux only on a pass that pushes the brightness to a GUI, where the cast would otherwise be undefined. They also require non-negative readings: the power law `K / pow(r, 1.5)` of a positive resistance is positive, and the float results of other voltages are not modelled.
- Sensors.SensorManager.GetLight promises only that the light is non-negative. The source puts no upper bound on it.
- Application.FluxSand.CheckTimer uses the corrected buzzer test of the Findings row, so it plays the note and stops the sand when a running timer runs out. The source as written never does either. Application.FluxSand.CheckTimerAsWritten models the code as written.
- Application.FluxSand.RunTimer calls CheckTimer, so it has the same corrected buzzer and sand stop.
- Application.FluxSand.Run reaches CheckTimer through RunTimer in TIMER mode, so it also reports the corrected buzzer and sand stop.
- The floating-point scale factors, PI and the cos/sin/noise direction scoring of `StepOnce` are exact reals or parameters. Single-precision rounding is not modelled.
- The random number generator is not modelled. `AddGrainNearExisting` takes the draw as a parameter; `StepOnce` takes the thresholds.
- The ONNX Runtime session and its output-shape check are not modelled. Inference is a function from the input window to probabilities.
- Console output, `RecordData`/`RecordTask` and `RunUnitTest` are not modelled. The calibration file is a parameter, and only its validation is modelled.
- Hardware access is not modelled: the ioctl, gpiod and sysfs calls of src/bsp. Their effects are logs of frames written and parameters for bytes read.
- Application.FluxSand.Run requires that the clock reads no earlier than the stopwatch and timer start times. The steady clock guarantees this.
- Bmp280Driver: every int32_t or int64_t intermediate must fit in its type. This is a precondition, because an overflow there is undefined behaviour in C++.
- Ads1115Driver: `ConfigureChannel` for a channel of 4 or more writes nothing, as in the source. The 1 ms settling sleep is not modelled.
- Mpu9250Driver: the magnetometer register writes are modelled as plain SPI frames. The outer restart and sleeps of the calibration thread are not modelled; `CalibrationTick` is one inner iteration.
- Sensors.SensorManager.CountAverage: the source's counter is a function-local `static`, shared by all instances. Here it is a field of the manager, which agrees when there is one manager, as in the application.
- Handlers: the handlers are given the application object. They reach the mode manager and the GUI through it, instead of through the pointers and callbacks stored by `Init`.
- Gui.CompGui.DrawDigit counts rows and cells by their logical coordinates instead of by the offsets `dy` and `dx`. The cells plotted and their order are the same.
- Gui.CompGui.Draw requires a non-negative value. A negative value indexes `FONT` out of bounds, which is undefined behaviour.
- Aht20Driver: `GetTemperature` and `GetHumidity` are read as the fields they return.
- src/fluxsand.hpp, src/main.cpp and the test doubles under test/ are not part of this model. They are an older application variant, wiring, and hardware mocks.
- SandModel.SandGrid.MoveSand requires two distinct grids, as the application always passes. The aliased call is not modelled.
- The `SensorManager`'s humidity and temperature reach `Run` already cast to `uint8_t`. The cast of a negative or large float, which is undefined behaviour, is not modelled.

## Findings

| source | as written | input that shows it | evidently intended | confidence | as-written member | corrected member |
|---|---|---|---|---|---|---|
| src/controller/fluxsand.hpp:118-124 | the buzzer test `remaining == 0 && IsTimerRunning()` runs after `GetRemainingTimerSeconds`, which has already switched the timer off whenever it returns 0, so the note never plays and the sand is never stopped there | any running timer read at or after `start + duration` seconds, e.g. a 60 s timer read at 60 s: it returns 0 and leaves `timer_active_` false | play the note and stop the sand once, on the pass where a running timer runs out | not executed | Application.BuzzAsWrittenNever | Application.BuzzOnce |
