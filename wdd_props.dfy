/** What the terminal's cycle guarantees: the backlight rule, the LED
    toggling, redraw suppression, the `dats_prev` hand-over between cycles,
    and that every stop is final and ends on the reboot message. */
module WddProps {

  import opened Wrappers
  import opened PyInt
  import opened Display
  import opened Wdd

  // ---------------------------------------------------------------------------
  // Numeric fields

  /** `stoi` returns the value of every integer written the way Python
      writes it. */
  lemma StoiRoundTrip(n: int)
    ensures Stoi(IntToString(n)) == Ok(n)
  {
    ParseIntRoundTrip(n);
  }

  // ---------------------------------------------------------------------------
  // One inner iteration

  /** An iteration repaints exactly when the selected four lines differ from
      `dats_prev`; a repaint records the new lines as `dats_prev` and uses
      the level digit of the location on show. */
  lemma TickRedrawIff(p: Panel, dat: seq<string>, lvr: int, prev: Prev, sw: bool)
    ensures var (q, o) := Tick(p, dat, lvr, prev, sw);
      && ((o == Ok(prev) && q.screen == p.screen) <==> prev == Shown(View(dat, sw)))
      && (prev != Shown(View(dat, sw)) && o.Ok? ==>
            && ShownLevel(dat, sw).Ok?
            && o == Ok(Shown(View(dat, sw)))
            && q.screen == p.screen + [FourLines(ShownLevel(dat, sw).value, View(dat, sw))])
  {
  }

  /** After an iteration that carries on, the same switch position on the
      next iteration repaints nothing. */
  lemma NoSecondRedraw(p: Panel, dat: seq<string>, lvr: int, prev: Prev, sw: bool)
    requires Tick(p, dat, lvr, prev, sw).1.Ok?
    ensures var (q, o) := Tick(p, dat, lvr, prev, sw);
      var (q2, o2) := Tick(q, dat, lvr, o.value, sw);
      o2 == o && q2.screen == q.screen
  {
  }

  /** The initial `dats_prev` equals no view, so the first iteration of the
      first cycle repaints (or stops). */
  lemma FirstTickRedraws(p: Panel, dat: seq<string>, lvr: int, sw: bool)
    ensures var (q, o) := Tick(p, dat, lvr, Blank, sw);
      o.Ok? ==> o == Ok(Shown(View(dat, sw))) && |q.screen| == |p.screen| + 1
  {
  }

  /** The level digit sits inside the view's own line 3, so equal views have
      equal levels: skipping a repaint never leaves stale colours. */
  lemma ColourFollowsContent(dat1: seq<string>, sw1: bool, dat2: seq<string>, sw2: bool)
    requires |dat1| >= 2 * LINES_PER_VIEW && |dat2| >= 2 * LINES_PER_VIEW
    requires View(dat1, sw1) == View(dat2, sw2)
    ensures ShownLevel(dat1, sw1) == ShownLevel(dat2, sw2)
  {
    assert View(dat1, sw1)[ROOM_LEVEL_LINE] == dat1[ViewBase(sw1) + ROOM_LEVEL_LINE];
    assert View(dat2, sw2)[ROOM_LEVEL_LINE] == dat2[ViewBase(sw2) + ROOM_LEVEL_LINE];
  }

  // ---------------------------------------------------------------------------
  // The inner loop

  /** One more switch reading runs one more iteration, unless the loop has
      already stopped. */
  lemma LoopLast(p: Panel, dat: seq<string>, lvr: int, prev: Prev, sws: seq<bool>)
    requires sws != []
    ensures var (q, o) := Loop(p, dat, lvr, prev, sws[..|sws| - 1]);
      Loop(p, dat, lvr, prev, sws) == if o.Stopped? then (q, o) else Tick(q, dat, lvr, o.value, sws[|sws| - 1])
  {
  }

  /** A loop that carries on to its end carried on up to its last reading,
      and its last iteration ran from there. */
  lemma LoopOkStep(p: Panel, dat: seq<string>, lvr: int, prev: Prev, sws: seq<bool>)
    requires sws != []
    requires Loop(p, dat, lvr, prev, sws).1.Ok?
    ensures Loop(p, dat, lvr, prev, sws[..|sws| - 1]).1.Ok?
    ensures Loop(p, dat, lvr, prev, sws) ==
      Tick(Loop(p, dat, lvr, prev, sws[..|sws| - 1]).0, dat, lvr, Loop(p, dat, lvr, prev, sws[..|sws| - 1]).1.value, sws[|sws| - 1])
  {
  }

  /** Running one more reading after a prefix that carried on is one more
      iteration from where the prefix left off. */
  lemma LoopExtend(p: Panel, dat: seq<string>, lvr: int, prev: Prev, sws: seq<bool>, i: nat, q: Panel, shown: Prev)
    requires i < |sws|
    requires Loop(p, dat, lvr, prev, sws[..i]) == (q, Ok(shown))
    ensures Loop(p, dat, lvr, prev, sws[..i + 1]) == Tick(q, dat, lvr, shown, sws[i])
  {
    assert sws[..i + 1][..i] == sws[..i];
  }

  /** An iteration sets the LEDs by LedStep and leaves the backlight alone. */
  lemma TickLeds(p: Panel, dat: seq<string>, lvr: int, prev: Prev, sw: bool)
    ensures var q := Tick(p, dat, lvr, prev, sw).0;
      q.ledY == LedStep(lvr, p.ledY).0 && q.ledR == LedStep(lvr, p.ledY).1 && q.duty == p.duty
  {
  }

  /** With both level digits in 0..5 an iteration never stops. */
  lemma TickCompletes(p: Panel, dat: seq<string>, lvr: int, prev: Prev, sw: bool)
    requires |dat| >= 2 * LINES_PER_VIEW
    requires LevelAt(dat, ROOM_LEVEL_LINE).Ok? && LevelAt(dat, ROOM_LEVEL_LINE).value <= 5
    requires LevelAt(dat, LINES_PER_VIEW + ROOM_LEVEL_LINE).Ok? && LevelAt(dat, LINES_PER_VIEW + ROOM_LEVEL_LINE).value <= 5
    ensures Tick(p, dat, lvr, prev, sw).1.Ok?
  {
  }

  /** An iteration that stops ends the loop: later switch readings change
      nothing. */
  lemma {:induction false} LoopStopsForGood(p: Panel, dat: seq<string>, lvr: int, prev: Prev, sws: seq<bool>, k: nat)
    requires k <= |sws|
    requires Loop(p, dat, lvr, prev, sws[..k]).1.Stopped?
    ensures Loop(p, dat, lvr, prev, sws) == Loop(p, dat, lvr, prev, sws[..k])
    decreases |sws|
  {
    if k == |sws| {
      assert sws[..k] == sws;
    } else {
      var front := sws[..|sws| - 1];
      assert front[..k] == sws[..k];
      LoopStopsForGood(p, dat, lvr, prev, front, k);
    }
  }

  /** The inner loop never touches the backlight. */
  lemma {:induction false} LoopKeepsDuty(p: Panel, dat: seq<string>, lvr: int, prev: Prev, sws: seq<bool>)
    ensures Loop(p, dat, lvr, prev, sws).0.duty == p.duty
    decreases |sws|
  {
    if sws != [] {
      LoopKeepsDuty(p, dat, lvr, prev, sws[..|sws| - 1]);
    }
  }

  /** While the room level is 5 LEDY flips on every iteration and LEDR shows
      its opposite; at any other level both are off after the first
      iteration. */
  lemma {:induction false} LoopLeds(p: Panel, dat: seq<string>, lvr: int, prev: Prev, sws: seq<bool>)
    requires Loop(p, dat, lvr, prev, sws).1.Ok?
    ensures var q := Loop(p, dat, lvr, prev, sws).0;
      && (lvr == 5 ==> q.ledY == (if |sws| % 2 == 0 then p.ledY else !p.ledY))
      && (lvr == 5 && sws != [] ==> q.ledR == !q.ledY)
      && (lvr != 5 && sws != [] ==> q.ledY == LED_OFF && q.ledR == LED_OFF)
    decreases |sws|
  {
    if sws != [] {
      var front := sws[..|sws| - 1];
      LoopOkStep(p, dat, lvr, prev, sws);
      LoopLeds(p, dat, lvr, prev, front);
      var (q, o) := Loop(p, dat, lvr, prev, front);
      TickLeds(q, dat, lvr, o.value, sws[|sws| - 1]);
      var q2 := Loop(p, dat, lvr, prev, sws).0;
      if lvr == 5 {
        assert q2.ledY == !q.ledY;
        assert |front| == |sws| - 1;
        ParityStep(|sws|);
      }
    }
  }

  lemma ParityStep(n: nat)
    requires n > 0
    ensures n % 2 == 0 <==> (n - 1) % 2 == 1
  {
  }

  /** The inner loop only ever adds four-line repaints, and what it returns
      as `dats_prev` is the last view it painted, or the `dats_prev` it was
      given when it painted nothing. */
  lemma {:induction false} LoopReturnsLastDrawn(p: Panel, dat: seq<string>, lvr: int, prev: Prev, sws: seq<bool>)
    requires Loop(p, dat, lvr, prev, sws).1.Ok?
    ensures var (q, o) := Loop(p, dat, lvr, prev, sws);
      RepaintedSince(p.screen, q.screen, prev, o.value)
    decreases |sws|
  {
    if sws != [] {
      var front := sws[..|sws| - 1];
      LoopOkStep(p, dat, lvr, prev, sws);
      LoopReturnsLastDrawn(p, dat, lvr, prev, front);
      var (q, o) := Loop(p, dat, lvr, prev, front);
      TickRepaints(q, dat, lvr, o.value, sws[|sws| - 1]);
      var (q2, o2) := Loop(p, dat, lvr, prev, sws);
      RepaintedCompose(p.screen, q.screen, q2.screen, prev, o.value, o2.value);
    }
  }

  /** `after` is `before` followed by four-line repaints only, and `now` is
      the lines of the last of them, or `was` when there are none. */
  ghost predicate RepaintedSince(before: seq<Draw>, after: seq<Draw>, was: Prev, now: Prev) {
    && before <= after
    && (forall j :: |before| <= j < |after| ==> after[j].FourLines?)
    && (after == before ==> now == was)
    && (after != before ==> now.Shown? && after[|after| - 1].lines == now.lines)
  }

  lemma RepaintedCompose(a: seq<Draw>, b: seq<Draw>, c: seq<Draw>, x: Prev, y: Prev, z: Prev)
    requires RepaintedSince(a, b, x, y) && RepaintedSince(b, c, y, z)
    ensures RepaintedSince(a, c, x, z)
  {
    if c == b {
    } else {
      assert |c| > |b| >= |a|;
    }
  }

  /** One iteration that carries on adds at most one four-line repaint, and
      returns the lines of that repaint, or `prev` when it adds none. */
  lemma TickRepaints(p: Panel, dat: seq<string>, lvr: int, prev: Prev, sw: bool)
    requires Tick(p, dat, lvr, prev, sw).1.Ok?
    ensures var (q, o) := Tick(p, dat, lvr, prev, sw);
      RepaintedSince(p.screen, q.screen, prev, o.value)
  {
    var (q, o) := Tick(p, dat, lvr, prev, sw);
    if q.screen != p.screen {
      assert q.screen == p.screen + [FourLines(ShownLevel(dat, sw).value, View(dat, sw))];
    }
  }

  /** With the switch left in one position for a whole cycle, the cycle
      repaints at most once: once when the view differs from `dats_prev`,
      never when it is the view already shown. */
  lemma {:induction false} SteadySwitchDrawsOnce(p: Panel, dat: seq<string>, lvr: int, prev: Prev, sws: seq<bool>, sw: bool)
    requires forall j :: 0 <= j < |sws| ==> sws[j] == sw
    requires Loop(p, dat, lvr, prev, sws).1.Ok?
    ensures var (q, o) := Loop(p, dat, lvr, prev, sws);
      if sws == [] || prev == Shown(View(dat, sw)) then
        q.screen == p.screen && o == Ok(prev)
      else
        && ShownLevel(dat, sw).Ok?
        && q.screen == p.screen + [FourLines(ShownLevel(dat, sw).value, View(dat, sw))]
        && o == Ok(Shown(View(dat, sw)))
    decreases |sws|
  {
    if sws != [] {
      var front := sws[..|sws| - 1];
      LoopOkStep(p, dat, lvr, prev, sws);
      SteadySwitchDrawsOnce(p, dat, lvr, prev, front, sw);
      var (q, o) := Loop(p, dat, lvr, prev, front);
      TickRedrawIff(q, dat, lvr, o.value, sw);
    }
  }

  /** A dataset with both level digits in 0..5 never stops the inner loop,
      whatever the switch does. */
  lemma {:induction false} WellFormedLoopCompletes(p: Panel, dat: seq<string>, lvr: int, prev: Prev, sws: seq<bool>)
    requires |dat| >= 2 * LINES_PER_VIEW
    requires LevelAt(dat, ROOM_LEVEL_LINE).Ok? && LevelAt(dat, ROOM_LEVEL_LINE).value <= 5
    requires LevelAt(dat, LINES_PER_VIEW + ROOM_LEVEL_LINE).Ok? && LevelAt(dat, LINES_PER_VIEW + ROOM_LEVEL_LINE).value <= 5
    ensures Loop(p, dat, lvr, prev, sws).1.Ok?
    decreases |sws|
  {
    if sws != [] {
      var front := sws[..|sws| - 1];
      WellFormedLoopCompletes(p, dat, lvr, prev, front);
      LoopLast(p, dat, lvr, prev, sws);
      var (q, o) := Loop(p, dat, lvr, prev, front);
      TickCompletes(q, dat, lvr, o.value, sws[|sws| - 1]);
    }
  }

  /** When the inner loop stops on a fault, the screen ends on the fault
      message followed by "reboot now". */
  lemma {:induction false} LoopFaultEndsInReboot(p: Panel, dat: seq<string>, lvr: int, prev: Prev, sws: seq<bool>, m: string)
    requires Loop(p, dat, lvr, prev, sws).1 == Stopped(Fault(m))
    ensures var q := Loop(p, dat, lvr, prev, sws).0;
      |q.screen| >= 2 && q.screen[|q.screen| - 2..] == StopScreens(Fault(m))
    decreases |sws|
  {
    var front := sws[..|sws| - 1];
    if Loop(p, dat, lvr, prev, front).1.Stopped? {
      LoopFaultEndsInReboot(p, dat, lvr, prev, front, m);
    }
  }

  // ---------------------------------------------------------------------------
  // One outer cycle

  /** A cycle whose fetch, room level and hour all succeed sets the
      backlight from level and hour and then runs the inner loop on the
      fetched lines. */
  lemma CycleRunsLoop(p: Panel, prev: Prev, f: Fetch, sws: seq<bool>, dat: seq<string>, lvr: int, hour: int)
    requires GetData(f).Ok? && GetData(f).value == dat
    requires RoomLevel(dat).Ok? && RoomLevel(dat).value == lvr
    requires HourOf(dat[0]).Ok? && HourOf(dat[0]).value == hour
    ensures Cycle(p, prev, f, sws) == Loop(p.(duty := BacklightDuty(lvr, hour)), dat, lvr, prev, sws)
  {
  }

  /** The backlight after a cycle that got as far as its hour: on at room
      level 5 whatever the hour, otherwise on exactly from 6 to 20 o'clock,
      and off (duty 0) at all other hours. */
  lemma CycleBacklight(p: Panel, prev: Prev, f: Fetch, sws: seq<bool>, dat: seq<string>, lvr: int, hour: int)
    requires GetData(f).Ok? && GetData(f).value == dat
    requires RoomLevel(dat).Ok? && RoomLevel(dat).value == lvr
    requires HourOf(dat[0]).Ok? && HourOf(dat[0]).value == hour
    ensures var q := Cycle(p, prev, f, sws).0;
      && (q.duty == BLK_CYCLE <==> lvr == 5 || 6 <= hour <= 20)
      && (q.duty != BLK_CYCLE ==> q.duty == 0)
  {
    CycleRunsLoop(p, prev, f, sws, dat, lvr, hour);
    LoopKeepsDuty(p.(duty := BacklightDuty(lvr, hour)), dat, lvr, prev, sws);
  }

  /** A time field that is not an integer ends the cycle in the VALUE fault
      before the backlight is touched; no hour is made up. */
  lemma CycleHourFault(p: Panel, prev: Prev, f: Fetch, sws: seq<bool>, dat: seq<string>)
    requires GetData(f).Ok? && GetData(f).value == dat
    requires RoomLevel(dat).Ok?
    requires ParseInt(HourField(dat[0])) == None
    ensures Cycle(p, prev, f, sws) == (p.(screen := p.screen + StopScreens(VALUE_ERR)), Stopped(VALUE_ERR))
  {
  }

  /** When a cycle stops on a fault, the screen ends on the fault message
      followed by "reboot now". */
  lemma CycleFaultEndsInReboot(p: Panel, prev: Prev, f: Fetch, sws: seq<bool>, m: string)
    requires Cycle(p, prev, f, sws).1 == Stopped(Fault(m))
    ensures var q := Cycle(p, prev, f, sws).0;
      |q.screen| >= 2 && q.screen[|q.screen| - 2..] == StopScreens(Fault(m))
  {
    var (q, o) := Prologue(p, f);
    if o.Ok? {
      LoopFaultEndsInReboot(q, o.value.0, o.value.1, prev, sws, m);
    }
  }

  // ---------------------------------------------------------------------------
  // main's cycles

  /** A stopped run is not resumed: the device resets instead, so later
      cycles never happen. */
  lemma {:induction false} RunStopsForGood(p: Panel, prev: Prev, cycles: seq<CycleInput>, k: nat)
    requires k <= |cycles|
    requires Run(p, prev, cycles[..k]).1.Stopped?
    ensures Run(p, prev, cycles) == Run(p, prev, cycles[..k])
    decreases |cycles|
  {
    if k == |cycles| {
      assert cycles[..k] == cycles;
    } else {
      var front := cycles[..|cycles| - 1];
      assert front[..k] == cycles[..k];
      RunStopsForGood(p, prev, front, k);
    }
  }

  /** Running one more cycle after a prefix that carried on is one more
      `wdd_term_loop` call from where the prefix left off. */
  lemma RunExtend(p: Panel, prev: Prev, cycles: seq<CycleInput>, i: nat, q: Panel, shown: Prev)
    requires i < |cycles|
    requires Run(p, prev, cycles[..i]) == (q, Ok(shown))
    ensures Run(p, prev, cycles[..i + 1]) == Cycle(q, shown, cycles[i].fetch, cycles[i].switches)
  {
    assert cycles[..i + 1][..i] == cycles[..i];
  }

  /** From power-up, `main`'s initialising message and cycles are `Main`. */
  lemma MainIsRunFromBoot(boot: Panel, start: Panel, cycles: seq<CycleInput>)
    requires start == boot.(screen := boot.screen + [OneLine(INIT_LEVEL, INIT_MESSAGE)])
    ensures boot == Boot() ==> Run(start, Blank, cycles) == Main(cycles)
  {
    if boot == Boot() {
      assert start == Boot().(screen := [OneLine(INIT_LEVEL, INIT_MESSAGE)]);
    }
  }

  /** Every fault, in whichever cycle, leaves the fault message and then
      "reboot now" as the last two things drawn. */
  lemma {:induction false} RunFaultEndsInReboot(p: Panel, prev: Prev, cycles: seq<CycleInput>, m: string)
    requires Run(p, prev, cycles).1 == Stopped(Fault(m))
    ensures var q := Run(p, prev, cycles).0;
      |q.screen| >= 2 && q.screen[|q.screen| - 2..] == StopScreens(Fault(m))
    decreases |cycles|
  {
    var front := cycles[..|cycles| - 1];
    var (q, o) := Run(p, prev, front);
    if o.Stopped? {
      RunFaultEndsInReboot(p, prev, front, m);
    } else {
      var c := cycles[|cycles| - 1];
      CycleFaultEndsInReboot(q, o.value, c.fetch, c.switches, m);
    }
  }

  // ---------------------------------------------------------------------------
  // Worked scenarios

  /** A dataset of eight lines whose room line carries the hour digits
      `h1 h2` at the time column, and whose two level lines carry the digits
      `room` and `out` at the level column. */
  ghost predicate Reads(dat: seq<string>, h1: char, h2: char, room: char, out: char) {
    && |dat| == 2 * LINES_PER_VIEW
    && |dat[0]| > TIME_COLUMN + 1 && dat[0][TIME_COLUMN] == h1 && dat[0][TIME_COLUMN + 1] == h2
    && |dat[ROOM_LEVEL_LINE]| > LEVEL_COLUMN && dat[ROOM_LEVEL_LINE][LEVEL_COLUMN] == room
    && |dat[LINES_PER_VIEW + ROOM_LEVEL_LINE]| > LEVEL_COLUMN
    && dat[LINES_PER_VIEW + ROOM_LEVEL_LINE][LEVEL_COLUMN] == out
  }

  /** Such a dataset yields the room level, the outside level and the hour
      its digits spell. */
  lemma DatasetFields(dat: seq<string>, h1: char, h2: char, room: char, out: char)
    requires IsDigit(h1) && IsDigit(h2) && IsDigit(room) && IsDigit(out)
    requires Reads(dat, h1, h2, room, out)
    ensures RoomLevel(dat).Ok? && RoomLevel(dat).value == DigitValue(room)
    ensures ShownLevel(dat, false).Ok? && ShownLevel(dat, false).value == DigitValue(out)
    ensures HourOf(dat[0]).Ok? && HourOf(dat[0]).value == 10 * DigitValue(h1) + DigitValue(h2)
  {
    HourOfTwoDigits(dat[0]);
  }

  /** At 07:xx with room level 3 (a room line such as `ROOM 07:15`), the
      outside level 4 and the switch on the room side all cycle: the
      backlight is lit and the room lines are painted once, in level 3's
      colours. */
  lemma DaytimeScenario(p: Panel, dat: seq<string>, sws: seq<bool>)
    requires Reads(dat, '0', '7', '3', '4')
    requires |sws| == LOOP_COUNT
    requires forall j :: 0 <= j < |sws| ==> sws[j]
    ensures var (q, o) := Cycle(p, Blank, Replied(200, dat), sws);
      && q.duty == BLK_CYCLE
      && q.screen == p.screen + [FourLines(3, dat[..LINES_PER_VIEW])]
      && o == Ok(Shown(dat[..LINES_PER_VIEW]))
  {
    DaytimeCycle(p, dat, sws);
    RoomSideLoop(p.(duty := BacklightDuty(3, 7)), dat, sws);
  }

  /** Such a fetch lights the backlight and hands the lines and level 3 to
      the inner loop. */
  lemma DaytimeCycle(p: Panel, dat: seq<string>, sws: seq<bool>)
    requires Reads(dat, '0', '7', '3', '4')
    ensures Cycle(p, Blank, Replied(200, dat), sws) == Loop(p.(duty := BacklightDuty(3, 7)), dat, 3, Blank, sws)
  {
    DatasetFields(dat, '0', '7', '3', '4');
    CycleRunsLoop(p, Blank, Replied(200, dat), sws, dat, 3, 7);
  }

  /** The inner loop on such a dataset with the switch on the room side
      throughout paints the room lines once in level 3. */
  lemma RoomSideLoop(p: Panel, dat: seq<string>, sws: seq<bool>)
    requires Reads(dat, '0', '7', '3', '4')
    requires |sws| == LOOP_COUNT
    requires forall j :: 0 <= j < |sws| ==> sws[j]
    ensures var (q, o) := Loop(p, dat, 3, Blank, sws);
      && q.duty == p.duty
      && q.screen == p.screen + [FourLines(3, dat[..LINES_PER_VIEW])]
      && o == Ok(Shown(dat[..LINES_PER_VIEW]))
  {
    DatasetFields(dat, '0', '7', '3', '4');
    WellFormedLoopCompletes(p, dat, 3, Blank, sws);
    SteadySwitchDrawsOnce(p, dat, 3, Blank, sws, true);
    LoopKeepsDuty(p, dat, 3, Blank, sws);
    assert ShownLevel(dat, true) == RoomLevel(dat);
    assert View(dat, true) == dat[..LINES_PER_VIEW];
  }

  /** At 23:xx with both levels 2 (a room line such as `ROOM 23:50`), the
      backlight is dark and both warning LEDs are off at the end of the
      cycle, whatever the switch does. */
  lemma NightScenario(p: Panel, dat: seq<string>, prev: Prev, sws: seq<bool>)
    requires Reads(dat, '2', '3', '2', '2')
    requires |sws| == LOOP_COUNT
    ensures var (q, o) := Cycle(p, prev, Replied(200, dat), sws);
      q.duty == 0 && q.ledY == LED_OFF && q.ledR == LED_OFF && o.Ok?
  {
    DatasetFields(dat, '2', '3', '2', '2');
    var p1 := p.(duty := BacklightDuty(2, 23));
    CycleRunsLoop(p, prev, Replied(200, dat), sws, dat, 2, 23);
    WellFormedLoopCompletes(p1, dat, 2, prev, sws);
    LoopKeepsDuty(p1, dat, 2, prev, sws);
    LoopLeds(p1, dat, 2, prev, sws);
  }

  /** A 503 reply shows "SERVER err" in the fault colours, then "reboot
      now", and the cycle ends there. */
  lemma ServerErrorScenario(p: Panel, prev: Prev, sws: seq<bool>)
    ensures Cycle(p, prev, Replied(503, []), sws)
      == (p.(screen := p.screen + [OneLine(FAULT_LEVEL, "SERVER err"), OneLine(REBOOT_LEVEL, "reboot now")]),
          Stopped(Fault("SERVER err")))
  {
  }
}
