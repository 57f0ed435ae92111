/** The controller as the script runs it: one object whose fields are the
    script's globals, updated in place by the handlers of the two event
    loops.  `Abs()` reads the fields as an OvenSpec.State, and every method
    is proved to move that state exactly as the OvenSpec function of the
    same handler does. */
module OvenController {
  import opened OvenValues
  import opened OvenSpec

  class Thermometer {
    // Recording
    var Timex: int
    var Curtemp: real
    var Timelist: seq<real>
    var Templist: seq<real>
    var Csvlog: seq<LogLine>
    // Display
    var Updtimex: int
    var Minx: int
    var Secx: int
    var Led: bool
    var Displayshow: View
    var Mousetimer: int
    // Hold
    var Htimex: int
    var Hminx: int
    var Hsecx: int
    var Htemp: real
    var Htempf: real
    // Menu
    var Menumode: bool
    var Menunow: Page
    var Mmenuline: int
    var Ttempadj: int
    var Tempadj: int
    var Ttimeval: int
    var Timeval: int
    var Tinterval: int
    // Process
    var Exited: bool
    var LogOpen: bool
    var Queue: seq<Event>
    /** Whether the glitch filter is on; fixed for the whole run. */
    const Glitchless: bool

    /** All fields as an OvenSpec.State. */
    ghost function Abs(): State
      reads this
    {
      State(Exited, LogOpen, Glitchless, RecAbs(), DispAbs(), HeldAbs(), MenuAbs(), Queue)
    }

    /** The recording fields as an OvenSpec.Recording. */
    ghost function RecAbs(): Recording
      reads this
    {
      Recording(Timex, Curtemp, Timelist, Templist, Csvlog)
    }

    /** The display fields as an OvenSpec.Display. */
    ghost function DispAbs(): Display
      reads this
    {
      Display(Updtimex, Minx, Secx, Led, Displayshow, Mousetimer)
    }

    /** The hold fields as an OvenSpec.Held. */
    ghost function HeldAbs(): Held
      reads this
    {
      Held(Htimex, Hminx, Hsecx, Htemp, Htempf)
    }

    /** The menu fields as an OvenSpec.Menu. */
    ghost function MenuAbs(): Menu
      reads this
    {
      Menu(Menumode, Menunow, Mmenuline, Ttempadj, Tempadj, Ttimeval, Timeval, Tinterval)
    }

    /** The invariant every reachable state keeps. */
    ghost predicate Valid()
      reads this
    {
      Inv(Abs())
    }

    /** Start-up: `probe` is the first raw sensor reading, `ticks` the tick
        counter in milliseconds.  The log is the fresh file after rotation. */
    constructor (probe: real, glitchless: bool, ticks: int)
      ensures Abs() == Init(probe, glitchless, ticks)
      ensures Valid()
    {
      Glitchless := glitchless;
      Timeval := 0;
      Tinterval := Timevals[0];
      Updtimex := 0;
      Led := true;
      Timex := 0;
      Minx := 0;
      Secx := 0;
      Tempadj := InitialTempadj;
      Ttempadj := InitialTempadj;
      Ttimeval := 0;
      Menunow := Main;
      var cur := probe + Tenths(InitialTempadj);
      Curtemp := cur;
      Timelist := [0 as real / 60.0];
      Templist := [CToF(cur)];
      Displayshow := Temperature;
      Htemp := cur;
      Htempf := CToF(cur);
      Htimex := 0;
      Hminx := 0;
      Hsecx := 0;
      Mousetimer := ticks / 1000;
      Menumode := false;
      Mmenuline := 1;
      Csvlog := [Record(0, cur, CToF(cur))];
      LogOpen := true;
      Exited := false;
      Queue := [];
    }

    // -------------------------------------------------------------------
    // The script's own blocks of assignments.  Each changes only the fields
    // its `modifies` names and is proved against the part of the abstract
    // state made of those fields.

    /** Recording tick: advance, read, append, filter in place, log. */
    method DoRectimerUpdates(probe: real)
      modifies this`Timex, this`Curtemp, this`Timelist, this`Templist, this`Csvlog
      ensures RecAbs() == RecTimerUpdates(old(RecAbs()), Tinterval, Tempadj, Glitchless, probe)
    {
      Timex := Timex + Tinterval;
      Curtemp := probe + Tenths(Tempadj);
      Templist := Templist + [CToF(Curtemp)];
      Timelist := Timelist + [Timex as real / 60.0];
      var n := |Templist|;
      if Glitchless && n > 2 {
        if Templist[n - 3] == Templist[n - 1] && Templist[n - 2] != Templist[n - 1] {
          Templist := Templist[n - 2 := Templist[n - 1]];
        }
      }
      Csvlog := Csvlog + [Record(Timex, Curtemp, CToF(Curtemp))];
    }

    /** Display tick: advance the refresh counter, split it, toggle the LED. */
    method DoTtimerUpdates()
      modifies this`Updtimex, this`Minx, this`Secx, this`Led
      ensures DispAbs() == TTimerUpdates(old(DispAbs()))
    {
      Updtimex := Updtimex + Updinterval;
      Minx := Updtimex / 60;
      Secx := Updtimex % 60;
      if Led {
        Led := false;
      } else {
        Led := true;
      }
    }

    /** Switch between the temperature and the graph view. */
    method ShowFlip()
      modifies this`Displayshow
      ensures DispAbs() == OvenSpec.ShowFlip(old(DispAbs()))
    {
      if Displayshow == Temperature {
        Displayshow := Graph;
      } else {
        Displayshow := Temperature;
      }
    }

    /** Copy the display time and the latest reading into the hold fields. */
    method CaptureHold()
      modifies this`Htimex, this`Hminx, this`Hsecx, this`Htemp, this`Htempf
      ensures HeldAbs() == OvenSpec.CaptureHold(DispAbs(), RecAbs())
    {
      Htimex := Updtimex;
      Hminx := Minx;
      Hsecx := Secx;
      Htemp := Curtemp;
      Htempf := CToF(Htemp);
    }

    /** The recording half of a restart: a fresh reading, both series back
        to one sample, and the restart marker and a time-0 record logged. */
    method RestartRecording(probe: real)
      modifies this`Timex, this`Curtemp, this`Timelist, this`Templist, this`Csvlog
      ensures RecAbs() == OvenSpec.Restart(old(Abs()), probe).rec
    {
      Timex := 0;
      Curtemp := probe + Tenths(Tempadj);
      Timelist := [Timex as real / 60.0];
      Templist := [CToF(Curtemp)];
      Csvlog := Csvlog + [RestartMark];
      Csvlog := Csvlog + [Record(Timex, Curtemp, CToF(Curtemp))];
    }

    /** The display half of a restart: clocks to zero, temperature view.
        (This half does not depend on the reading, hence any value.) */
    method ResetClocks()
      modifies this`Updtimex, this`Minx, this`Secx, this`Displayshow
      ensures DispAbs() == OvenSpec.Restart(old(Abs()), 0.0).disp
    {
      Minx := 0;
      Secx := 0;
      Updtimex := 0;
      Displayshow := Temperature;
    }

    /** Switch to menu mode on the main page, line 1 highlighted. */
    method EnterMenu()
      modifies this`Menumode, this`Mmenuline, this`Menunow
      ensures MenuAbs() == OvenSpec.EnterMenu(old(MenuAbs()))
    {
      Menumode := true;
      Mmenuline := 1;
      Menunow := Main;
    }

    /** The touch filter: `ticks` is the tick counter in ms, taken in whole
        seconds as the script's integer division does. */
    method Touch(button: int, ticks: int)
      modifies this`Mousetimer, this`Displayshow
      ensures DispAbs() == TouchDown(old(DispAbs()), button, ticks)
    {
      if button == 1 {
        var mousetime := ticks / 1000;
        if mousetime - Mousetimer > Mousewait {
          Mousetimer := mousetime;
          ShowFlip();
        }
      }
    }

    /** Up in menu mode. */
    method MenuUp()
      modifies this`Mmenuline, this`Ttempadj, this`Ttimeval
      ensures MenuAbs() == OvenSpec.MenuUp(old(MenuAbs()))
    {
      if Menunow == Main {
        if Mmenuline == 1 {
          Mmenuline := Mmenumax;
        } else {
          Mmenuline := Mmenuline - 1;
        }
      } else if Menunow == TempAdj {
        if Ttempadj < MaxAdj {
          Ttempadj := Ttempadj + 1;
        }
      } else if Menunow == TimeAdj && Ttimeval < |Timevals| - 1 {
        Ttimeval := Ttimeval + 1;
      }
    }

    /** Down in menu mode. */
    method MenuDown()
      modifies this`Mmenuline, this`Ttempadj, this`Ttimeval
      ensures MenuAbs() == OvenSpec.MenuDown(old(MenuAbs()))
    {
      if Menunow == Main {
        if Mmenuline == Mmenumax {
          Mmenuline := 1;
        } else {
          Mmenuline := Mmenuline + 1;
        }
      } else if Menunow == TempAdj {
        if Ttempadj > MinAdj {
          Ttempadj := Ttempadj - 1;
        }
      } else if Menunow == TimeAdj && Ttimeval > 0 {
        Ttimeval := Ttimeval - 1;
      }
    }

    /** Select in menu mode on any line but Exit of the main page. */
    method Choose()
      requires IndicesValid(MenuAbs())
      modifies this`Menunow, this`Ttempadj, this`Ttimeval, this`Menumode, this`Tempadj, this`Tinterval
      ensures MenuAbs() == MenuChoose(old(MenuAbs()))
    {
      if Menunow == Main {
        if Mmenuline == LineTempAdj {
          Menunow := TempAdj;
          Ttempadj := Tempadj;
        } else if Mmenuline == LineTimeAdj {
          Menunow := TimeAdj;
          Ttimeval := Timeval;
        } else if Mmenuline == LineReturn {
          Menumode := false;
        }
      } else if Menunow == TempAdj {
        Tempadj := Ttempadj;
        Menunow := Main;
      } else if Menunow == TimeAdj {
        Tinterval := Timevals[Ttimeval];
        Menunow := Main;
      }
    }

    /** Every exit path: close the log, maybe switch the LED off, stop. */
    method Shutdown(ledOff: bool)
      modifies this`LogOpen, this`Led, this`Exited
      ensures Exited && !LogOpen && Led == (old(Led) && !ledOff)
    {
      LogOpen := false;
      if ledOff {
        Led := false;
      }
      Exited := true;
    }

    /** Append an event to the back of the queue. */
    method Post(e: Event)
      modifies this`Queue
      ensures Abs() == OvenSpec.Post(old(Abs()), e)
    {
      Queue := Queue + [e];
    }

    // -------------------------------------------------------------------
    // The same blocks seen on the whole abstract state, and the handlers
    // of the event loops built from them.  The `On...`, `NewRecording` and
    // `ClearClocks` methods below stand for no separate code in the script:
    // each only calls one field-framed method above and restates its effect
    // on `Abs()`, so that the dispatchers need not reason field by field.

    /** The recording timer event, in either mode. */
    method OnRecTimer(probe: real)
      modifies this
      ensures Abs() == old(Abs()).(rec := RecTimerUpdates(old(Abs()).rec, Tinterval, Tempadj, Glitchless, probe))
    {
      DoRectimerUpdates(probe);
    }

    /** The display timer event, in either mode. */
    method OnDispTimer()
      modifies this
      ensures Abs() == old(Abs()).(disp := TTimerUpdates(old(Abs()).disp))
    {
      DoTtimerUpdates();
    }

    /** A touch event in normal mode. */
    method OnTouch(button: int, ticks: int)
      modifies this
      ensures Abs() == old(Abs()).(disp := TouchDown(old(Abs()).disp, button, ticks))
    {
      Touch(button, ticks);
    }

    /** Button 2 in normal mode. */
    method OnHold()
      modifies this
      ensures Abs() == old(Abs()).(held := OvenSpec.CaptureHold(old(Abs()).disp, old(Abs()).rec))
    {
      CaptureHold();
    }

    /** The recording half of a restart on the whole state. */
    method NewRecording(probe: real)
      modifies this
      ensures Abs() == old(Abs()).(rec := OvenSpec.Restart(old(Abs()), probe).rec)
    {
      RestartRecording(probe);
    }

    /** The display half of a restart on the whole state. */
    method ClearClocks()
      modifies this
      ensures Abs() == old(Abs()).(disp := OvenSpec.Restart(old(Abs()), 0.0).disp)
    {
      ResetClocks();
    }

    /** Button 3 in normal mode: the recording restarts and the clocks are
        cleared.  The script assigns the held values directly (time 0 and the
        fresh reading); copying them from the just-reset clocks and reading
        with `OnHold` gives the same values. */
    method OnRestart(probe: real)
      modifies this
      ensures Abs() == OvenSpec.Restart(old(Abs()), probe)
    {
      NewRecording(probe);
      ClearClocks();
      OnHold();
    }

    /** Button 4 in normal mode. */
    method OnEnterMenu()
      modifies this
      ensures Abs() == old(Abs()).(menu := OvenSpec.EnterMenu(old(Abs()).menu))
    {
      EnterMenu();
    }

    /** Button 2 in menu mode. */
    method OnUp()
      modifies this
      ensures Abs() == old(Abs()).(menu := OvenSpec.MenuUp(old(Abs()).menu))
    {
      MenuUp();
    }

    /** Button 3 in menu mode. */
    method OnDown()
      modifies this
      ensures Abs() == old(Abs()).(menu := OvenSpec.MenuDown(old(Abs()).menu))
    {
      MenuDown();
    }

    /** Button 4 in menu mode, any line but Exit of the main page. */
    method OnChoose()
      requires IndicesValid(MenuAbs())
      modifies this
      ensures Abs() == old(Abs()).(menu := MenuChoose(old(Abs()).menu))
    {
      Choose();
    }

    /** An exit path; `ledOff` says whether it switches the LED off. */
    method OnExit(ledOff: bool)
      modifies this
      ensures Abs() == OvenSpec.Shutdown(old(Abs()), ledOff)
    {
      Shutdown(ledOff);
    }

    /** Button 4 in menu mode. */
    method MenuSelect()
      requires IndicesValid(MenuAbs())
      modifies this
      ensures Abs() == OvenSpec.MenuSelect(old(Abs()))
    {
      if Menunow == Main && Mmenuline == LineExit {
        OnExit(true);
      } else {
        OnChoose();
      }
    }

    /** The GPIO callback for a falling edge on `channel`. */
    method Gpiobut(channel: int)
      modifies this
      ensures Abs() == GpioPost(old(Abs()), channel)
    {
      if channel == 22 {
        Post(Button(2));
      } else if channel == 23 {
        Post(Button(3));
      } else if channel == 27 {
        Post(Button(4));
      }
    }

    /** A key press in the current mode. */
    method KeyDown(ch: char)
      modifies this
      ensures Abs() == OvenSpec.KeyDown(old(Abs()), ch)
    {
      if !Menumode {
        if ch == 'h' {
          Post(Button(2));
        } else if ch == 'r' {
          Post(Button(3));
        } else if ch == 'm' {
          Post(Button(4));
        } else if ch == 'x' {
          OnExit(false);
        }
      } else {
        if ch == 'u' {
          Post(Button(2));
        } else if ch == 'd' {
          Post(Button(3));
        } else if ch == 's' {
          Post(Button(4));
        } else if ch == 'x' {
          OnExit(true);
        }
      }
    }

    /** A button event in normal mode. */
    method NormalButton(b: int, probe: real)
      modifies this
      ensures Abs() == OvenSpec.NormalButton(old(Abs()), b, probe)
    {
      if b == 2 {
        OnHold();
      } else if b == 3 {
        OnRestart(probe);
      } else if b == 4 {
        OnEnterMenu();
      }
    }

    /** A button event in menu mode. */
    method MenuButton(b: int)
      requires IndicesValid(MenuAbs())
      modifies this
      ensures Abs() == OvenSpec.MenuButton(old(Abs()), b)
    {
      if b == 2 {
        OnUp();
      } else if b == 3 {
        OnDown();
      } else if b == 4 {
        MenuSelect();
      }
    }

    /** One pass of the loop body of the current mode. */
    method Handle(e: Event, probe: real)
      requires IndicesValid(MenuAbs())
      modifies this
      ensures Abs() == OvenSpec.Handle(old(Abs()), e, probe)
    {
      match e
      case Quit => OnExit(true);
      case RecTick => OnRecTimer(probe);
      case DispTick => OnDispTimer();
      case Button(b) =>
        if Menumode {
          MenuButton(b);
        } else {
          NormalButton(b, probe);
        }
      case Touch(b, ticks) =>
        if !Menumode {
          OnTouch(b, ticks);
        }
      case Key(ch) => KeyDown(ch);
    }

    /** Take the event at the head of the queue and handle it. */
    method Step(probe: real)
      requires Queue != [] && IndicesValid(MenuAbs())
      modifies this
      ensures Abs() == OvenSpec.Step(old(Abs()), probe)
    {
      var e := Queue[0];
      Queue := Queue[1..];
      Handle(e, probe);
    }

    /** The event loops: handle queued events, one sensor reading per event,
        until the readings or the queue run out or an exit path is taken.
        Returns how many events were handled. */
    method MainLoop(probes: seq<real>) returns (handled: nat)
      requires Valid()
      modifies this
      ensures Abs() == Run(old(Abs()), probes)
      ensures Valid()
      ensures handled <= |probes|
      ensures handled < |probes| ==> Exited || Queue == []
    {
      ghost var s0 := Abs();
      var i := 0;
      while i < |probes| && !Exited && Queue != []
        invariant 0 <= i <= |probes|
        invariant Valid()
        invariant Run(Abs(), probes[i..]) == Run(s0, probes)
        decreases |probes| - i
      {
        assert probes[i..][0] == probes[i] && probes[i..][1..] == probes[i + 1..];
        RunStep(Abs(), probes[i..]);
        Step(probes[i]);
        i := i + 1;
      }
      RunUnfold(Abs(), probes[i..]);
      handled := i;
    }
  }
}
