/** The terminal as the script runs it: hardware outputs held in fields and
    changed in place, `dats_prev` handed from one `WddTermLoop` call to the
    next by `MainLoop`. Every method is proved to leave the fields as the
    matching function of module Wdd says. */
module Device {

  import opened Wrappers
  import opened PyInt
  import opened Display
  import opened Wdd
  import WddProps

  class Terminal {
    /** The LEDY and LEDR pin values (active-low). */
    var ledY: bool
    var ledR: bool
    /** `BLK.duty_cycle`. */
    var duty: int
    /** Every `disp_1line` / `disp_4line` call so far. */
    var screen: seq<Draw>

    function State(): Panel
      reads this
    {
      Panel(ledY, ledR, duty, screen)
    }

    /** Power-up: both LEDs lit, the backlight PWM started at BLK_CYCLE. */
    constructor ()
      ensures State() == Boot()
    {
      ledR := LED_ON;
      ledY := LED_ON;
      duty := BLK_CYCLE;
      screen := [];
    }

    /** `disp_1line`: a full repaint with one line of text. */
    method Disp1Line(lv: int, text: string)
      requires ColorFor(lv).Some?
      modifies this
      ensures State() == old(State()).(screen := old(screen) + [OneLine(lv, text)])
    {
      screen := screen + [OneLine(lv, text)];
    }

    /** `disp_4line`: a full repaint with four lines of text. */
    method Disp4Line(lv: int, dats: seq<string>)
      requires ColorFor(lv).Some?
      modifies this
      ensures State() == old(State()).(screen := old(screen) + [FourLines(lv, dats)])
    {
      screen := screen + [FourLines(lv, dats)];
    }

    /** `handle_error`: the message in the fault colours, then, after the
        reboot delay, "reboot now"; the reset that follows is the returned
        stop. */
    method HandleError(message: string) returns (s: Stop)
      modifies this
      ensures s == Fault(message)
      ensures State() == old(State()).(screen := old(screen) + StopScreens(s))
    {
      Disp1Line(FAULT_LEVEL, message);
      Disp1Line(REBOOT_LEVEL, REBOOT_MESSAGE);
      s := Fault(message);
    }

    /** `stoi`: `int(text)`, or the VALUE fault. */
    method Stoi(text: string) returns (r: Outcome<int>)
      modifies this
      ensures r == Wdd.Stoi(text)
      ensures r.Ok? ==> State() == old(State())
      ensures r.Stopped? ==> State() == Halt<int>(old(State()), r.stop).0
    {
      var value := ParseInt(text);
      if value.None? {
        var s := HandleError("VALUE err");
        return Stopped(s);
      }
      r := Ok(value.value);
    }

    /** `get_data`: the reply's lines, or the Wi-Fi or server fault. */
    method GetData(f: Fetch) returns (r: Outcome<seq<string>>)
      modifies this
      ensures r == Wdd.GetData(f)
      ensures r.Ok? ==> State() == old(State())
      ensures r.Stopped? ==> State() == Halt<int>(old(State()), r.stop).0
    {
      if f.ConnectFailed? {
        var s := HandleError("Wi-Fi error");
        return Stopped(s);
      }
      if f.status != 200 {
        var s := HandleError("SERVER err");
        return Stopped(s);
      }
      r := Ok(f.lines);
    }

    /** `blk_ctrl(lvr, dat0)`: parses the hour, then sets the backlight. */
    method BlkCtrl(lvr: int, dat0: string) returns (stop: Option<Stop>)
      modifies this
      ensures HourOf(dat0).Stopped? ==> stop == Some(HourOf(dat0).stop) && State() == Halt<int>(old(State()), stop.value).0
      ensures HourOf(dat0).Ok? ==> stop == None && State() == old(State()).(duty := BacklightDuty(lvr, HourOf(dat0).value))
    {
      var hhmm := PySlice(dat0, TIME_COLUMN, |dat0|);
      var hour := Stoi(PySlice(hhmm, 0, 2));
      if hour.Stopped? {
        return Some(hour.stop);
      }
      if lvr == 5 {
        duty := BLK_CYCLE;
      } else if 6 <= hour.value && hour.value <= 20 {
        duty := BLK_CYCLE;
      } else {
        duty := 0;
      }
      stop := None;
    }

    /** `stoi(dat[k][7])`, with the IndexError of a missing line or column. */
    method ReadLevel(dat: seq<string>, k: nat) returns (r: Outcome<int>)
      modifies this
      ensures r == LevelAt(dat, k)
      ensures r.Ok? ==> State() == old(State())
      ensures r.Stopped? ==> State() == Halt<int>(old(State()), r.stop).0
    {
      if k >= |dat| || |dat[k]| <= LEVEL_COLUMN {
        return Stopped(INDEX_ERROR);
      }
      LevelAtIsStoi(dat, k);
      r := Stoi([dat[k][LEVEL_COLUMN]]);
    }

    /** The start of `wdd_term_loop`: `get_data`, then the backlight.
        Yields the lines and the room level. */
    method Prologue(f: Fetch) returns (r: Outcome<(seq<string>, int)>)
      modifies this
      ensures (State(), r) == Wdd.Prologue(old(State()), f)
    {
      var got := GetData(f);
      if got.Stopped? {
        return Stopped(got.stop);
      }
      var dat := got.value;
      var lvr := Backlight(dat);
      if lvr.Stopped? {
        return Stopped(lvr.stop);
      }
      r := Ok((dat, lvr.value));
    }

    /** The room level read from line 3, then `blk_ctrl(lvr, dat[0])`. */
    method Backlight(dat: seq<string>) returns (r: Outcome<int>)
      modifies this
      ensures (State(), r) == Wdd.Backlight(old(State()), dat)
    {
      ghost var p := State();
      var lvr := ReadLevel(dat, ROOM_LEVEL_LINE);
      assert RoomLevel(dat) == lvr;
      if lvr.Stopped? {
        return Stopped(lvr.stop);
      }
      var blk := BlkCtrl(lvr.value, dat[0]);
      if blk.Some? {
        return Stopped(blk.value);
      }
      r := lvr;
    }

    /** `wdd_term_loop(dats_prev)`: one fetch, the backlight decision, then
        LOOP_COUNT iterations of LED update, view selection and repaint
        when the view changed. Returns the `dats_prev` for the next cycle. */
    method WddTermLoop(datsPrev: Prev, f: Fetch, switches: seq<bool>) returns (r: Outcome<Prev>)
      requires |switches| == LOOP_COUNT
      modifies this
      ensures (State(), r) == Cycle(old(State()), datsPrev, f, switches)
    {
      var pr := Prologue(f);
      if pr.Stopped? {
        return Stopped(pr.stop);
      }
      var (dat, lvr) := pr.value;
      r := InnerLoop(dat, lvr, datsPrev, switches);
    }

    /** The `for i in range(LOOP_COUNT)` loop of `wdd_term_loop`. */
    method InnerLoop(dat: seq<string>, lvr: int, datsPrev: Prev, switches: seq<bool>) returns (r: Outcome<Prev>)
      requires |switches| == LOOP_COUNT
      modifies this
      ensures (State(), r) == Loop(old(State()), dat, lvr, datsPrev, switches)
    {
      ghost var start := State();
      r := Ok(datsPrev);
      assert switches[..0] == [];
      for i := 0 to LOOP_COUNT
        invariant r.Ok?
        invariant (State(), r) == Loop(start, dat, lvr, datsPrev, switches[..i])
      {
        WddProps.LoopExtend(start, dat, lvr, datsPrev, switches, i, State(), r.value);
        r := Tick(dat, lvr, r.value, switches[i]);
        if r.Stopped? {
          WddProps.LoopStopsForGood(start, dat, lvr, datsPrev, switches, i + 1);
          return;
        }
      }
      assert switches[..LOOP_COUNT] == switches;
    }

    /** One pass of that loop: the LED update, the switch read and the
        repaint when the selected lines differ from `prev`. */
    method Tick(dat: seq<string>, lvr: int, prev: Prev, switch: bool) returns (o: Outcome<Prev>)
      modifies this
      ensures (State(), o) == Wdd.Tick(old(State()), dat, lvr, prev, switch)
    {
      ghost var leds := LedStep(lvr, ledY);
      if lvr == 5 {
        ledY := !ledY;
        ledR := !ledY;
      } else {
        ledY := LED_OFF;
        ledR := LED_OFF;
      }
      ghost var q := State();
      assert q == old(State()).(ledY := leds.0, ledR := leds.1);
      var rl := !switch;
      var base := if rl then LINES_PER_VIEW else 0;
      var dats := PySlice(dat, base, base + LINES_PER_VIEW);
      assert dats == View(dat, switch);
      if Shown(dats) == prev {
        assert Wdd.Tick(old(State()), dat, lvr, prev, switch) == (q, Ok(prev));
        return Ok(prev);
      }
      var lvd := ReadLevel(dat, base + ROOM_LEVEL_LINE);
      assert lvd == ShownLevel(dat, switch);
      if lvd.Stopped? {
        assert Wdd.Tick(old(State()), dat, lvr, prev, switch) == Halt(q, lvd.stop);
        return Stopped(lvd.stop);
      }
      assert State() == q;
      if ColorFor(lvd.value).None? {
        assert q.screen + StopScreens(INDEX_ERROR) == q.screen;
        assert Wdd.Tick(old(State()), dat, lvr, prev, switch) == Halt(q, INDEX_ERROR);
        return Stopped(INDEX_ERROR);
      }
      Disp4Line(lvd.value, dats);
      assert State() == q.(screen := q.screen + [FourLines(lvd.value, dats)]);
      o := Ok(Shown(dats));
      assert Wdd.Tick(old(State()), dat, lvr, prev, switch) == (q.(screen := q.screen + [FourLines(lvd.value, dats)]), o);
    }

    /** `main()`: the initialising message, then `wdd_term_loop` cycle after
        cycle with `dats_prev` starting as `""`, until a cycle stops. */
    method MainLoop(cycles: seq<CycleInput>) returns (r: Outcome<Prev>)
      requires forall i :: 0 <= i < |cycles| ==> |cycles[i].switches| == LOOP_COUNT
      modifies this
      ensures (State(), r) == Run(old(State()).(screen := old(screen) + [OneLine(INIT_LEVEL, INIT_MESSAGE)]), Blank, cycles)
      ensures old(State()) == Boot() ==> (State(), r) == Main(cycles)
    {
      ghost var boot := State();
      Disp1Line(INIT_LEVEL, INIT_MESSAGE);
      ghost var start := State();
      WddProps.MainIsRunFromBoot(boot, start, cycles);
      r := Ok(Blank);
      assert cycles[..0] == [];
      var i := 0;
      while i < |cycles|
        invariant 0 <= i <= |cycles|
        invariant r.Ok?
        invariant (State(), r) == Run(start, Blank, cycles[..i])
      {
        WddProps.RunExtend(start, Blank, cycles, i, State(), r.value);
        r := WddTermLoop(r.value, cycles[i].fetch, cycles[i].switches);
        if r.Stopped? {
          WddProps.RunStopsForGood(start, Blank, cycles, i + 1);
          return;
        }
        i := i + 1;
      }
      assert cycles[..|cycles|] == cycles;
    }
  }
}
