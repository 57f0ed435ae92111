# Oven thermometer controller (Proto26.py)

Proto26.py runs a Raspberry Pi oven thermometer with a PiTFT screen. It has:

- a thermocouple probe;
- an activity LED;
- three GPIO buttons;
- a touch screen.

Under the pygame, GPIO and matplotlib calls sits a small deterministic
controller: a set of global variables changed by a loop that takes one event
at a time, in one of two modes.

- **Normal mode** records the temperature. Buttons do three things: capture a
  "hold" reading, restart recording, or enter the menu. A touch flips between
  the temperature view and the graph view.
- **Menu mode** has a main page (Temp Adjust, Time Adjust, Return, Exit) and
  two adjust pages. Up and Down change a *staged* value. Select *commits* it.
- **Both modes** handle the recording timer and the display timer.
- **Keys** re-post button events. The 'x' key exits.

At start-up the script rotates its CSV log through two backup generations.

The project has four modules:

- `OvenValues` (oven_values.dfy) holds the event type, the enumerations, the
  constants and the pure helpers:
  - Celsius/Fahrenheit conversion;
  - the channel and key mappings;
  - wrap-around and clamping of the menu values;
  - the minutes/seconds split;
  - the glitch filter.
- `LogRotation` (log_rotation.dfy) models the log rotation as a function over
  an abstract file system, a map from file name to contents.
- `OvenSpec` (controller_spec.dfy) is the specification:
  - the controller state as a value;
  - one function per handler;
  - `Handle`, `Step` and `Run`;
  - the invariant `Inv` of reachable states;
  - the lemmas about single events and whole runs.
- `OvenController` (thermometer.dfy) is the class `Thermometer`:
  - Its fields are the script's globals.
  - Its methods update them in place, including the overwrite of the
    second-last temperature by the glitch filter.
  - Each method is proved against the matching `OvenSpec` function through
    the abstraction `Abs()`.
  - `MainLoop` is the event loop, proved equal to `OvenSpec.Run` and to keep
    `Inv`.

Representation choices:

- Calibration offsets are integer tenths of a degree Celsius. For example, the
  initial -3.2 °C is -32.
- Temperatures are `real`.
- Touch times arrive as the pygame millisecond tick counter. The script runs
  under `#!/usr/bin/python`, which is Python 2. There, `get_ticks()/1000`
  divides integers and floors. The debounce therefore works on whole
  seconds: `Mousetimer` holds the whole second of the last accepted touch.
  A new touch is accepted only when its whole second minus `Mousetimer` is
  more than 2 (`Seconds`, `TouchDebounceWholeSeconds`).
- The value the sensor returns is a parameter (`probe`) of every handler that
  reads it: the recording tick and Restart.
- The event queue is a field. Key presses append a button event to it, and
  `Step` takes events from its front.

Where the script's behaviour is easy to misread, the model follows the
code:

- **Time Adjust never updates `Timeval`.** Selecting on the Time Adjust page
  commits `Tinterval := Timevals[Ttimeval]` but never writes `Timeval`
  (Proto26.py:709-714). Opening the page again therefore stages from
  `Timeval`, which is 0 from start-up (Proto26.py:343, 682), not from the
  interval last committed (`TimePageRestagesFromFirstInterval`).
- **Return keeps the view.** Return only clears `Menumode` and re-renders
  whatever view was active (Proto26.py:687-695). It does not toggle the view
  (`ReturnKeepsView`).
- **The trailing text after the Time Adjust Up branch is a comment.** The
  text after the `#` at Proto26.py:617 does nothing, so Time Adjust Up is
  just the clamped increment.
- **Normal-mode 'x' leaves the LED alone.** It closes the log and exits
  without switching the LED off (Proto26.py:545-548). Every other exit path
  switches it off.
- **Two globals start undefined.** `Menunow` and `Ttimeval` are read only
  after the menu code has set them. The model starts them at `Main` and 0.
- **`Glitchless` is a parameter.** The script hard-codes it as False. The
  model makes it a constructor parameter so that both filter behaviours are
  covered.

## Model

| member | source | states |
|---|---|---|
| OvenValues.CToF | Proto26.py:162-163 | the Fahrenheit value f of c satisfies (f - 32)*5 == c*9; its inverse is stated by CToFRoundTrip |
| OvenValues.Seconds | Proto26.py:526 | the whole second of a millisecond tick count, floored as Python 2 integer division does: secs*1000 <= ticks < secs*1000 + 1000 |
| OvenValues.Tenths | Proto26.py:32 | an offset in tenths, times ten, is the offset in degrees |
| OvenValues.CToFRoundTrip | Proto26.py:162-163 | c_to_f (`c*9/5+32`) and its inverse undo each other in both directions |
| OvenValues.CToFStrictlyMonotone | Proto26.py:162-163 | c_to_f preserves and reflects strict order |
| OvenValues.GpioButton | Proto26.py:150-158 | channels 22/23/27 map to buttons 2/3/4 in that order; a button is produced iff the channel is one of the three |
| OvenValues.KeyButton | Proto26.py:538-543 | h/r/m (normal) and u/d/s (menu) map to buttons 2/3/4 in that order; a button iff the key is one of the mode's three; 'x' never maps to a button (also lines 726-731) |
| OvenValues.MenuLineUp | Proto26.py:592-596 | on lines 1..4, Up stays in 1..4 and is the cyclic predecessor (1 wraps to Mmenumax) |
| OvenValues.MenuLineDown | Proto26.py:625-629 | on lines 1..4, Down stays in 1..4 and is the cyclic successor (Mmenumax wraps to 1) |
| OvenValues.MenuLineUpDownInverse | Proto26.py:592-596 | Up and Down on the main page undo each other on every valid line |
| OvenValues.AdjUp | Proto26.py:603-608 | staged calibration rises by 0.1 °C, clamped at +10.0; above the bound it is unchanged |
| OvenValues.AdjDown | Proto26.py:634-639 | staged calibration falls by 0.1 °C, clamped at -10.0; below the bound it is unchanged |
| OvenValues.IndexUp | Proto26.py:614-615 | interval index rises by one without wrapping, clamped at the last index of Timevals |
| OvenValues.IndexDown | Proto26.py:645-646 | interval index falls by one without wrapping, clamped at 0 |
| OvenValues.SplitTime | Proto26.py:272-273 | minutes*60 + seconds equals the elapsed seconds and 0 <= seconds < 60 |
| OvenValues.Deglitch | Proto26.py:294-296 | same length; only the second-last element can change; a lone spike between two equal readings is replaced by the newest; otherwise the series is unchanged; the result ends in no spike |
| OvenValues.DeglitchIdempotent | Proto26.py:294-296 | filtering twice is the same as filtering once |
| OvenValues.DeglitchExamples | Proto26.py:294-296 | a 70/71/70 spike becomes 70/70/70, a rising 70/71/72 is kept |
| LogRotation.GenerationNamesDistinct | Proto26.py:402-410 | the base name and its save1/save2 names (suffix appended without separator) are pairwise distinct |
| LogRotation.Remove | Proto26.py:401-404 | the named file is gone afterwards, whether or not it existed; no other file changes |
| LogRotation.Rename | Proto26.py:405-412 | an existing file moves to the new name with its contents; a missing one changes nothing; no other file changes |
| LogRotation.Rotate | Proto26.py:401-412 | save2 is dropped, save1 becomes save2 iff it existed, the log becomes save1 iff it existed, the log's name is left free, no other file is touched |
| LogRotation.OpenLog | Proto26.py:401-416 | the base file holds just the seed record; save1 holds the old base file iff it existed; save2 holds the old save1 iff it existed; all other files are untouched |
| LogRotation.TwoStartsKeepLogAsSave2 | Proto26.py:401-416 | after two start-ups the log from before both is save2 and the first start-up's log is save1 |
| OvenSpec.SeedRecording | Proto26.py:382-384 | the seed sample is time 0 and the Fahrenheit reading, in both series and the log, satisfying the recording invariant |
| OvenSpec.Init | Proto26.py:343-351 | initial state satisfies Inv and is running with the log open: normal mode, line 1, temperature view, LED on, Timeval 0 and the first interval, clocks at 0, calibration -3.2 staged and committed, reading = probe + calibration, one-sample series, hold = time 0 and the first reading, touch timer = start-up second, Glitchless = the given setting, log = seed record, empty queue (also lines 369-370, 378-396 and 414-415) |
| OvenSpec.RecTimerUpdates | Proto26.py:285-299 | Timex grows by Tinterval; reading = probe + committed calibration; Timelist gains Timex/60; Templist gains the Fahrenheit reading, and with the filter on the new series is exactly Deglitch of the appended one (a series of two samples is never altered; a spike is always overwritten by the newest reading); without it nothing is altered; the log gains the unfiltered record |
| OvenSpec.TTimerUpdates | Proto26.py:268-280 | Updtimex grows by Updinterval, Minx*60+Secx == Updtimex with 0 <= Secx < 60, the LED toggles, view and touch timer unchanged |
| OvenSpec.ShowFlip | Proto26.py:255-263 | the view always changes and nothing else in the display does |
| OvenSpec.CaptureHold | Proto26.py:472-476 | the held values are copies of Updtimex/Minx/Secx and of Curtemp in °C and °F; the hold invariant follows from the display invariant |
| OvenSpec.Restart | Proto26.py:487-502 | clocks to 0; both series one sample; temperature view; hold reset to the fresh reading; log gains the restart marker then a time-0 record; menu, LED, touch timer, queue unchanged |
| OvenSpec.EnterMenu | Proto26.py:510-514 | menu mode on, Main page, line 1; staged and committed values unchanged |
| OvenSpec.TouchDown | Proto26.py:521-530 | the view flips iff button == 1 and more than Mousewait whole seconds passed since the last accepted touch; that touch's whole second then becomes Mousetimer; otherwise nothing changes |
| OvenSpec.NormalButton | Proto26.py:468-514 | button 2 captures the hold, button 3 is Restart, button 4 enters the menu, any other button does nothing; a normal-mode button never exits, never touches the queue or a committed setting, only appends to the log, and turns menu mode on iff it is button 4 |
| OvenSpec.MenuUp | Proto26.py:588-617 | on Main the line moves by MenuLineUp, on Temp Adjust the staged calibration by AdjUp, on Time Adjust the staged index by IndexUp; nothing else changes, never a committed value; the menu invariant is preserved |
| OvenSpec.MenuDown | Proto26.py:621-648 | on Main the line moves by MenuLineDown, on Temp Adjust the staged calibration by AdjDown, on Time Adjust the staged index by IndexDown; nothing else changes, never a committed value; the menu invariant is preserved |
| OvenSpec.MenuChoose | Proto26.py:669-714 | Select on Temp Adjust commits Tempadj := Ttempadj and Select on Time Adjust commits Tinterval := Timevals[Ttimeval]; neither changes anywhere else; line 1 opens Temp Adjust staged with Tempadj, line 2 opens Time Adjust staged with Timeval, line 3 (Return) leaves menu mode and nothing else does; Timeval and the highlighted line never change; an adjust page returns to Main |
| OvenSpec.Shutdown | Proto26.py:662-666 | every exit path stops the loop and closes the log; the LED goes off unless the path leaves it on; nothing else changes (also lines 436-440, 545-548, 562-566, 732-736) |
| OvenSpec.MenuSelect | Proto26.py:659-714 | Select on the Exit line of the Main page is Shutdown with the LED off; on any other line or page it is MenuChoose on the menu alone; so it stops the program iff it is on Exit and never touches the recording, the hold, the queue or the view |
| OvenSpec.MenuButton | Proto26.py:588-714 | button 2 is Up, button 3 is Down, button 4 is Select, other buttons do nothing; a menu-mode button stops the program only as Select on Exit, never touches the recording, the hold, the queue or the view, and commits the calibration or interval only as Select on the matching page |
| OvenSpec.Post | Proto26.py:539-543 | an event posted by a producer joins the back of the queue and nothing else changes |
| OvenSpec.GpioPost | Proto26.py:150-158 | a known channel queues exactly its button event (through GpioButton) at the back; any other channel leaves the state unchanged |
| OvenSpec.KeyDown | Proto26.py:534-548 | a mapped key queues its button instead of acting; 'x' shuts down, switching the LED off only in menu mode; other keys do nothing (also lines 722-736) |
| OvenSpec.Handle | Proto26.py:430-549 | the menu indices stay valid and the queue is only appended to, by at most one event; which handler each event runs is HandleDispatch, and what the handlers do is stated by their own contracts and the single-event lemmas (also lines 556-736) |
| OvenSpec.Step | Proto26.py:430-431 | the menu indices stay valid; the events behind the head stay at the front of the queue, in order, and the queue never grows; StepHandlesOldestFirst and StepPreservesInv complete it |
| OvenSpec.Run | Proto26.py:430-736 | its own contract only keeps the menu indices valid across the recursion; RunPreservesInv, RunLogAppendOnly and TickRunKeepsConfig state what a run does |
| OvenSpec.HandleCommitsOnlyOnSelect | Proto26.py:701-714 | Tempadj changes only by Select on the Temp Adjust page, Tinterval only by Select on the Time Adjust page, Timeval never; the log only grows; an exit is final |
| OvenSpec.HandleDispatch | Proto26.py:443-456 | a recording tick runs RecTimerUpdates and a display tick TTimerUpdates in either mode; a touch in normal mode runs TouchDown; a button runs NormalButton in normal mode and MenuButton in menu mode; a key runs KeyDown (also lines 459-548, 569-583, 722-736) |
| OvenSpec.StepHandlesOldestFirst | Proto26.py:430-431 | a step handles the oldest queued event, and the rest of the queue stays in order ahead of anything the handler posts |
| OvenSpec.SelectCommitsAndStages | Proto26.py:669-714 | in menu mode, Select on an adjust page commits exactly the staged value and returns to Main; Select on line 1 or 2 of Main opens that page staged with the committed value; nothing else changes |
| OvenSpec.RecTickPreservesInv | Proto26.py:288-296 | a recording tick keeps the series parallel, Timelist strictly increasing and the newest temperature the live reading |
| OvenSpec.NormalButtonPreservesInv | Proto26.py:468-514 | hold, restart and menu entry preserve Inv |
| OvenSpec.MenuButtonPreservesInv | Proto26.py:588-714 | Up, Down and Select preserve Inv: line in 1..4, staged calibration within ±10.0, index valid, committed interval one of Timevals |
| OvenSpec.HandlePreservesInv | Proto26.py:430-736 | every event in either mode preserves Inv |
| OvenSpec.StepPreservesInv | Proto26.py:430-431 | taking the next queued event and handling it preserves Inv |
| OvenSpec.ShowFlipTwice | Proto26.py:255-263 | flipping the view twice restores the display |
| OvenSpec.QuitCleanupEverywhere | Proto26.py:436-440 | Quit in any mode or page closes the log, switches the LED off and stops, changing nothing else (also lines 562-566) |
| OvenSpec.TouchIgnoredInMenu | Proto26.py:556-736 | a touch changes nothing in menu mode (that loop has no touch branch) |
| OvenSpec.HoldKeyActsLater | Proto26.py:538-539 | 'h' only queues button 2; the capture happens when that event is handled on the next pass |
| OvenSpec.ExitPaths | Proto26.py:662-666 | the program stops iff the event is Quit, 'x', or Select on the Exit line of the Main page; the log is then closed, and the LED is off except after normal-mode 'x' (also lines 436-440, 545-548, 562-566, 732-736) |
| OvenSpec.TouchDebounceWholeSeconds | Proto26.py:526-530 | after a touch accepted at second 1, a touch at 3999 ms is dropped and one at 4000 ms flips the view and records second 4 |
| OvenSpec.ReturnKeepsView | Proto26.py:687-695 | Return leaves menu mode and leaves the display, including the view, as it was |
| OvenSpec.TimePageRestagesFromFirstInterval | Proto26.py:678-684 | after committing the second interval, reopening Time Adjust and selecting again commits 6 s, since Timeval was never updated (also lines 343-344, 709-714) |
| OvenSpec.StartupLogIsFreshFile | Proto26.py:413-416 | after rotation the base log file holds exactly the initial state's log |
| OvenSpec.RunPreservesInv | Proto26.py:430-736 | every state reached by a run satisfies Inv |
| OvenSpec.RunLogAppendOnly | Proto26.py:298-299 | over a run the log is only appended to and Timeval never changes (also lines 500-501) |
| OvenSpec.TickRunKeepsConfig | Proto26.py:443-456 | a run of timer ticks leaves menu state, committed configuration and view unchanged (also lines 569-576) |
| OvenController.Thermometer.constructor | Proto26.py:378-416 | the new controller's state is Init and satisfies Inv |
| OvenController.Thermometer.DoRectimerUpdates | Proto26.py:285-299 | in-place append of both series, overwrite of Templist[-2] and append to the log, equal to RecTimerUpdates |
| OvenController.Thermometer.DoTtimerUpdates | Proto26.py:268-280 | the display fields become TTimerUpdates of their old values |
| OvenController.Thermometer.ShowFlip | Proto26.py:255-263 | the display fields become OvenSpec.ShowFlip of their old values |
| OvenController.Thermometer.CaptureHold | Proto26.py:472-476 | the hold fields become OvenSpec.CaptureHold of the live values |
| OvenController.Thermometer.RestartRecording | Proto26.py:487-493 | the recording fields become the recording part of OvenSpec.Restart (also lines 500-501) |
| OvenController.Thermometer.ResetClocks | Proto26.py:487-494 | the display fields become the display part of OvenSpec.Restart |
| OvenController.Thermometer.EnterMenu | Proto26.py:510-514 | the menu fields become OvenSpec.EnterMenu of their old values |
| OvenController.Thermometer.Touch | Proto26.py:525-530 | the display fields become TouchDown of their old values |
| OvenController.Thermometer.MenuUp | Proto26.py:592-617 | the menu fields become OvenSpec.MenuUp of their old values |
| OvenController.Thermometer.MenuDown | Proto26.py:625-648 | the menu fields become OvenSpec.MenuDown of their old values |
| OvenController.Thermometer.Choose | Proto26.py:669-714 | the menu fields become MenuChoose of their old values |
| OvenController.Thermometer.Shutdown | Proto26.py:662-666 | stopped, log closed, LED off unless the path keeps it |
| OvenController.Thermometer.Post | Proto26.py:539-543 | the state becomes OvenSpec.Post of the old state |
| OvenController.Thermometer.OnRestart | Proto26.py:487-502 | the whole state becomes OvenSpec.Restart of the old state |
| OvenController.Thermometer.OnExit | Proto26.py:662-666 | the whole state becomes OvenSpec.Shutdown of the old state |
| OvenController.Thermometer.MenuSelect | Proto26.py:659-714 | the whole state becomes OvenSpec.MenuSelect of the old state |
| OvenController.Thermometer.Gpiobut | Proto26.py:150-158 | the whole state becomes GpioPost of the old state |
| OvenController.Thermometer.KeyDown | Proto26.py:534-548 | the whole state becomes OvenSpec.KeyDown of the old state (also lines 722-736) |
| OvenController.Thermometer.NormalButton | Proto26.py:468-514 | the whole state becomes OvenSpec.NormalButton of the old state |
| OvenController.Thermometer.MenuButton | Proto26.py:588-714 | the whole state becomes OvenSpec.MenuButton of the old state |
| OvenController.Thermometer.Handle | Proto26.py:436-548 | the whole state becomes OvenSpec.Handle of the old state (also lines 562-736) |
| OvenController.Thermometer.Step | Proto26.py:430-431 | the whole state becomes OvenSpec.Step of the old state |
| OvenController.Thermometer.MainLoop | Proto26.py:430-736 | the loop ends in OvenSpec.Run of the start state with Inv kept; it stops early only when an exit path was taken or the queue ran dry |

## Left out

- Rendering is not modelled: `show_temp`, `show_graph`, `show_text_menu`, the screen half of `show_flip`, and the text written into the menu pages (Proto26.py:200-251, 609, 640, 674). It is pygame drawing with no effect on the state.
- `make_graph` is not modelled. It is matplotlib image output.
- Sensor access is not modelled. `get_temp` reads the MAX31855 over SPI (Proto26.py:167-170); the raw reading is the parameter `probe` instead.
- GPIO pin setup and the 300 ms `bouncetime` debounce inside RPi.GPIO are not modelled (Proto26.py:364-374). Neither are the LED pin writes; only the `Led` flag is kept.
- The `fastevent` threads and the pygame timers are not modelled (`set_timer` at Proto26.py:346, 351, 712). Event production is left to the caller. Re-arming the recording timer is only the new `Tinterval` value.
- The blocking wait for an event on an empty queue is not modelled. `Step` requires a non-empty queue, and `Run`/`MainLoop` stop when the queue is empty.
- SDL environment setup, `pygame.display.quit` and `sys.exit` are not modelled (Proto26.py:314-320). Every exit path is the terminal flag `Exited` together with a closed log.
- The CSV text format is not modelled. Log lines are the `LogLine` datatype: `Record(secs, tempC, tempF)` or `RestartMark` for the "00,00,00" line. The `str()`/`int()` formatting is not represented.
- Floating-point effects are not modelled. The calibration offsets are exact tenths, so 0.1 steps do not drift and the near-zero snap (Proto26.py:607-608, 638-639) never fires. Real arithmetic replaces binary floating point for the readings.
- The debug prints and the `itempc` internal-chip reading are not modelled. They have no effect on the state.
- Under Python 3 the touch test at Proto26.py:526-528 would use true division, which is a finer test than the whole-second one modelled. That reading is not modelled; the model follows the Python 2 interpreter the script names.
- OvenSpec.Run: the run is bounded by the sequence of probe values given, one per handled event, instead of running forever.
