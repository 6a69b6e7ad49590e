/** The decision core of the colour Weather Data Display terminal: one fetch
    of an 8-line dataset per outer cycle, the backlight decision taken from
    the room level and the hour, then LOOP_COUNT fast iterations that toggle
    the warning LEDs, read the room/outside switch and repaint the four
    selected lines only when they changed.

    Everything here is a pure function of the inputs and of the hardware
    outputs before the step (a `Panel`); the class in module Device performs
    the same steps in place and is proved to agree with these functions. */
module Wdd {

  import opened Wrappers
  import opened PyInt
  import opened Display

  /** Inner iterations per fetch. */
  const LOOP_COUNT: nat := 50
  /** Backlight brightness, in percent. */
  const BLK_DUTY: int := 10
  /** `int(BLK_DUTY * 65535 / 100)`: the 16-bit PWM duty cycle. Python's true
      division gives 6553.5 and `int` truncates, as the integer division of
      these non-negative operands does. */
  const BLK_CYCLE: int := BLK_DUTY * 65535 / 100
  /** The LEDs are wired active-low: driving the pin low lights them. */
  const LED_ON: bool := false
  const LED_OFF: bool := true

  /** Colour levels `handle_error` and `main` paint their one-line messages with. */
  const INIT_LEVEL: int := 0
  const FAULT_LEVEL: int := 4
  const REBOOT_LEVEL: int := 3
  const INIT_MESSAGE: string := " INITIALIZE"
  const REBOOT_MESSAGE: string := "reboot now"

  /** Where the fixed-offset fields sit: the room level is character 7 of
      line 3, the outside level character 7 of line 7, and the room time
      `HH:MM` starts at character 5 of line 0. */
  const ROOM_LEVEL_LINE: nat := 3
  const LEVEL_COLUMN: nat := 7
  const TIME_COLUMN: nat := 5
  const LINES_PER_VIEW: nat := 4

  /** How a cycle ends when it does not run to completion. `Fault` is the
      `handle_error` path: the message is shown and the device resets.
      `Uncaught` is a Python exception nothing catches (an index past the
      data): the script ends there. */
  datatype Stop = Fault(message: string) | Uncaught(error: string)

  datatype Outcome<T> = Ok(value: T) | Stopped(stop: Stop)

  const INDEX_ERROR: Stop := Uncaught("IndexError")
  const VALUE_ERR: Stop := Fault("VALUE err")
  const WIFI_ERR: Stop := Fault("Wi-Fi error")
  const SERVER_ERR: Stop := Fault("SERVER err")

  /** `dats_prev`: `Blank` is the initial `""`, which no list of lines equals. */
  datatype Prev = Blank | Shown(lines: seq<string>)

  /** What one `get_data` call meets: the Wi-Fi connect raising OSError, or an
      HTTP reply with its status and its body already split into lines. */
  datatype Fetch = ConnectFailed | Replied(status: int, lines: seq<string>)

  /** The hardware outputs: the yellow and red LED pin values, the backlight
      PWM duty cycle and every drawing call made so far. */
  datatype Panel = Panel(ledY: bool, ledR: bool, duty: int, screen: seq<Draw>)

  /** The inputs of one outer cycle: the fetch and one switch reading per
      inner iteration (`true` = released, pulled up). */
  datatype CycleInput = CycleInput(fetch: Fetch, switches: seq<bool>)

  /** The panel at power-up: both LEDs lit, the backlight at BLK_CYCLE. */
  function Boot(): Panel {
    Panel(LED_ON, LED_ON, BLK_CYCLE, [])
  }

  /** What the screen shows on the way out of a cycle that stops: the fault
      message, then "reboot now". An uncaught exception draws nothing. */
  function StopScreens(s: Stop): seq<Draw> {
    match s
    case Fault(message) => [OneLine(FAULT_LEVEL, message), OneLine(REBOOT_LEVEL, REBOOT_MESSAGE)]
    case Uncaught(_) => []
  }

  function Halt<T>(p: Panel, s: Stop): (Panel, Outcome<T>) {
    (p.(screen := p.screen + StopScreens(s)), Stopped(s))
  }

  /** Python's `s[lo:hi]` for non-negative bounds: out-of-range bounds clamp. */
  function PySlice<T>(s: seq<T>, lo: nat, hi: nat): (r: seq<T>)
    ensures |r| == if lo < hi && lo < |s| then (if hi < |s| then hi else |s|) - lo else 0
    ensures |r| > 0 ==> lo + |r| <= |s|
    ensures forall j :: 0 <= j < |r| ==> r[j] == s[lo + j]
  {
    var a := if lo < |s| then lo else |s|;
    var b := if hi < |s| then hi else |s|;
    if a < b then s[a..b] else []
  }

  /** `stoi(text)`: the integer `int(text)` when the text parses, otherwise
      `handle_error("VALUE err")`, which never returns. */
  function Stoi(text: string): (r: Outcome<int>)
    ensures r.Ok? <==> ParseInt(text).Some?
    ensures r.Ok? ==> r.value == ParseInt(text).value
    ensures r.Stopped? ==> r.stop == VALUE_ERR
  {
    match ParseInt(text)
    case Some(v) => Ok(v)
    case None => Stopped(VALUE_ERR)
  }

  /** `get_data()`: the reply's lines when the status is 200; a connect
      failure and any other status end in their faults. */
  function GetData(f: Fetch): (r: Outcome<seq<string>>)
    ensures f.ConnectFailed? ==> r == Stopped(WIFI_ERR)
    ensures f.Replied? ==> (r.Ok? <==> f.status == 200)
    ensures f.Replied? && f.status != 200 ==> r == Stopped(SERVER_ERR)
    ensures r.Ok? ==> r.value == f.lines
  {
    match f
    case ConnectFailed => Stopped(WIFI_ERR)
    case Replied(status, lines) => if status != 200 then Stopped(SERVER_ERR) else Ok(lines)
  }

  /** `stoi(dat[k][7])`: the level digit of line `k`. A missing line or a
      line too short raises IndexError; a digit reads as its value and an
      underscore, which the parser skips, as 0; any other character is a
      VALUE fault. */
  function LevelAt(dat: seq<string>, k: nat): (r: Outcome<int>)
    ensures r.Ok? <==> k < |dat| && |dat[k]| > LEVEL_COLUMN && (IsDigit(dat[k][LEVEL_COLUMN]) || dat[k][LEVEL_COLUMN] == '_')
    ensures r.Ok? ==> 0 <= r.value <= 9
    ensures r.Ok? ==> r.value == if IsDigit(dat[k][LEVEL_COLUMN]) then DigitValue(dat[k][LEVEL_COLUMN]) else 0
    ensures r == Stopped(INDEX_ERROR) <==> k >= |dat| || |dat[k]| <= LEVEL_COLUMN
    ensures r.Stopped? && r != Stopped(INDEX_ERROR) ==> r == Stopped(VALUE_ERR)
  {
    if k >= |dat| || |dat[k]| <= LEVEL_COLUMN then Stopped(INDEX_ERROR)
    else if IsDigit(dat[k][LEVEL_COLUMN]) then Ok(DigitValue(dat[k][LEVEL_COLUMN]))
    else if dat[k][LEVEL_COLUMN] == '_' then Ok(0)
    else Stopped(VALUE_ERR)
  }

  /** Once the character exists, LevelAt is `stoi` of that one character. */
  lemma LevelAtIsStoi(dat: seq<string>, k: nat)
    requires k < |dat| && |dat[k]| > LEVEL_COLUMN
    ensures LevelAt(dat, k) == Stoi([dat[k][LEVEL_COLUMN]])
  {
    ParseOneChar(dat[k][LEVEL_COLUMN]);
  }

  /** `lvr`, the room level, from line 3. */
  function RoomLevel(dat: seq<string>): (r: Outcome<int>)
    ensures r.Ok? ==> |dat| > ROOM_LEVEL_LINE
  {
    LevelAt(dat, ROOM_LEVEL_LINE)
  }

  /** `dat0[5:][0:2]`: the `HH` of the `HH:MM` that starts at character 5. */
  function HourField(line0: string): string {
    PySlice(PySlice(line0, TIME_COLUMN, |line0|), 0, 2)
  }

  /** `stoi(hhmm[0:2])` in `blk_ctrl`: the hour, or the VALUE fault; never a
      default. */
  function HourOf(line0: string): (r: Outcome<int>)
    ensures r.Ok? <==> ParseInt(HourField(line0)).Some?
    ensures r.Ok? ==> r.value == ParseInt(HourField(line0)).value
    ensures r.Stopped? ==> r.stop == VALUE_ERR
  {
    Stoi(HourField(line0))
  }

  /** Line 0 carries two digits where the hour belongs. */
  predicate TwoDigitHour(line0: string) {
    |line0| > TIME_COLUMN + 1 && IsDigit(line0[TIME_COLUMN]) && IsDigit(line0[TIME_COLUMN + 1])
  }

  /** A line 0 that ends before the time column has an empty hour field,
      which is a VALUE fault. */
  lemma HourOfShortLine(line0: string)
    requires |line0| <= TIME_COLUMN
    ensures HourOf(line0) == Stopped(VALUE_ERR)
  {
    assert HourField(line0) == [];
    ParseEmpty();
  }

  /** Two digits at the time column are the hour they spell, `07` included. */
  lemma HourOfTwoDigits(line0: string)
    requires TwoDigitHour(line0)
    ensures HourOf(line0).Ok?
    ensures HourOf(line0).value == 10 * DigitValue(line0[TIME_COLUMN]) + DigitValue(line0[TIME_COLUMN + 1])
  {
    assert HourField(line0) == [line0[TIME_COLUMN], line0[TIME_COLUMN + 1]];
    ParseTwoDigits(line0[TIME_COLUMN], line0[TIME_COLUMN + 1]);
  }

  /** The duty cycle `blk_ctrl` writes: lit at level 5 whatever the hour,
      otherwise lit from 6:00 to 20:59 and dark at night. */
  function BacklightDuty(level: int, hour: int): (r: int)
    ensures r == BLK_CYCLE <==> level == 5 || 6 <= hour <= 20
    ensures r != BLK_CYCLE ==> r == 0
  {
    if level == 5 then BLK_CYCLE
    else if 6 <= hour && hour <= 20 then BLK_CYCLE
    else 0
  }

  /** The first line of the view the switch selects: `rl = not RL_SW.value`
      picks lines `4*rl` onwards, the room block when the switch reads true. */
  function ViewBase(switch: bool): (b: nat)
    ensures b == if switch then 0 else LINES_PER_VIEW
  {
    var rl := !switch;
    if rl then LINES_PER_VIEW else 0
  }

  /** `dat[(4*rl):(4+4*rl)]`: at most four lines, exactly four when the
      dataset has all eight, each the dataset's line at the same offset. */
  function View(dat: seq<string>, switch: bool): (r: seq<string>)
    ensures |r| <= LINES_PER_VIEW
    ensures |dat| >= 2 * LINES_PER_VIEW ==> |r| == LINES_PER_VIEW
    ensures |r| > 0 ==> ViewBase(switch) + |r| <= |dat|
    ensures forall j :: 0 <= j < |r| ==> r[j] == dat[ViewBase(switch) + j]
    ensures |r| < LINES_PER_VIEW ==> |r| == if |dat| > ViewBase(switch) then |dat| - ViewBase(switch) else 0
  {
    PySlice(dat, ViewBase(switch), ViewBase(switch) + LINES_PER_VIEW)
  }

  /** `lvd = stoi(dat[3+4*rl][7])`: the level of the location on show, not
      necessarily the room level. */
  function ShownLevel(dat: seq<string>, switch: bool): Outcome<int> {
    LevelAt(dat, ViewBase(switch) + ROOM_LEVEL_LINE)
  }

  /** One iteration's LED update: at level 5 LEDY flips and LEDR is then set
      to the opposite of LEDY; at any other level both are switched off. */
  function LedStep(level: int, ledY: bool): (r: (bool, bool))
    ensures level == 5 ==> r.0 == !ledY && r.1 == !r.0
    ensures level != 5 ==> r.0 == LED_OFF && r.1 == LED_OFF
  {
    if level == 5 then
      var y := !ledY;
      (y, !y)
    else (LED_OFF, LED_OFF)
  }

  /** One pass of the `for i in range(LOOP_COUNT)` body of `wdd_term_loop`. */
  function Tick(p: Panel, dat: seq<string>, lvr: int, prev: Prev, switch: bool): (Panel, Outcome<Prev>) {
    var leds := LedStep(lvr, p.ledY);
    var q := p.(ledY := leds.0, ledR := leds.1);
    var dats := View(dat, switch);
    if prev == Shown(dats) then (q, Ok(prev))
    else
      match ShownLevel(dat, switch)
      case Stopped(s) => Halt(q, s)
      case Ok(lvd) =>
        if ColorFor(lvd).None? then Halt(q, INDEX_ERROR)
        else (q.(screen := q.screen + [FourLines(lvd, dats)]), Ok(Shown(dats)))
  }

  /** The inner loop run over the given switch readings, one per iteration,
      stopping at the first iteration that stops. */
  function Loop(p: Panel, dat: seq<string>, lvr: int, prev: Prev, switches: seq<bool>): (Panel, Outcome<Prev>)
    decreases |switches|
  {
    if switches == [] then (p, Ok(prev))
    else
      var (q, o) := Loop(p, dat, lvr, prev, switches[..|switches| - 1]);
      if o.Stopped? then (q, o) else Tick(q, dat, lvr, o.value, switches[|switches| - 1])
  }

  /** The part of `wdd_term_loop` before its `for` loop: fetch the data,
      then light the backlight from it. Yields the lines and the room level
      the loop works on. */
  function Prologue(p: Panel, f: Fetch): (Panel, Outcome<(seq<string>, int)>) {
    match GetData(f)
    case Stopped(s) => Halt(p, s)
    case Ok(dat) =>
      var (q, o) := Backlight(p, dat);
      match o
      case Stopped(s) => (q, Stopped(s))
      case Ok(lvr) => (q, Ok((dat, lvr)))
  }

  /** The room level of the fetched lines, then `blk_ctrl(lvr, dat[0])`:
      the backlight set from that level and the hour. Yields the level. */
  function Backlight(p: Panel, dat: seq<string>): (Panel, Outcome<int>) {
    match RoomLevel(dat)
    case Stopped(s) => Halt(p, s)
    case Ok(lvr) =>
      match HourOf(dat[0])
      case Stopped(s) => Halt(p, s)
      case Ok(hour) => (p.(duty := BacklightDuty(lvr, hour)), Ok(lvr))
  }

  /** `wdd_term_loop(dats_prev)`: the prologue, then the inner loop; the
      outcome carries the `dats_prev` it returns. */
  function Cycle(p: Panel, prev: Prev, f: Fetch, switches: seq<bool>): (Panel, Outcome<Prev>) {
    var (q, o) := Prologue(p, f);
    match o
    case Stopped(s) => (q, Stopped(s))
    case Ok((dat, lvr)) => Loop(q, dat, lvr, prev, switches)
  }

  /** `main`'s `while True` over the given cycles, `dats_prev` threaded from
      one cycle to the next, ending at the first cycle that stops. */
  function Run(p: Panel, prev: Prev, cycles: seq<CycleInput>): (Panel, Outcome<Prev>)
    decreases |cycles|
  {
    if cycles == [] then (p, Ok(prev))
    else
      var (q, o) := Run(p, prev, cycles[..|cycles| - 1]);
      var c := cycles[|cycles| - 1];
      if o.Stopped? then (q, o) else Cycle(q, o.value, c.fetch, c.switches)
  }

  /** `main()` from power-up: the initialising message, then the cycles with
      `dats_prev` starting as `""`. */
  function Main(cycles: seq<CycleInput>): (Panel, Outcome<Prev>) {
    Run(Boot().(screen := [OneLine(INIT_LEVEL, INIT_MESSAGE)]), Blank, cycles)
  }
}
