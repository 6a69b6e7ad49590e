# wdd_term_color in Dafny

This project models the decision core of `code.py`, the CircuitPython script that drives the colour Weather Data Display terminal. The terminal runs on a Seeed XIAO ESP32C6 with a 240x240 ST7789 LCD, a yellow on-board LED, a red warning LED and a room/outside switch.

Each outer cycle of `wdd_term_loop` does the following:
- It fetches an 8-line dataset. Lines 0-3 describe the room and lines 4-7 the outside.
- It reads the room WBGT risk level from character 7 of line 3. The data carries levels 0..5, but `stoi` accepts any digit there, and `_` reads as 0.
- It sets the backlight PWM duty from that level and from the hour `HH` of the `HH:MM` at character 5 of line 0.
- It then runs `LOOP_COUNT` (50) fast iterations. Each iteration:
  - toggles the warning LEDs (level 5) or switches them off;
  - reads the switch and selects four lines;
  - repaints the screen, in the colours of the shown location's level, only when those lines differ from `dats_prev`.
- `main` threads `dats_prev` from one cycle to the next, starting from `""`.

Every fault path goes through `handle_error`: Wi-Fi, a non-200 status, or text `int()` rejects. It shows the message at colour level 4, then "reboot now" at level 3, and resets the device.

Modules:
- `Wrappers` (`wrappers.dfy`): `Option`.
- `PyInt` (`pyint.dfy`): CircuitPython's `int(text)` and `str(n)`, as `stoi` relies on them. The runtime's integer parser skips ASCII whitespace around the number and takes one optional sign. It then reads a non-empty run of ASCII digits and underscores, skipping every underscore wherever it stands, so `int("_")` is 0.
- `Display` (`display.dfy`): the `WBGT_COLOR` table and the `Draw` events that stand for `disp_1line` / `disp_4line`.
- `Wdd` (`wdd.dfy`): the rules as pure functions.
  - `Panel` is the hardware output state: LED pins, backlight duty and the trace of draw calls.
  - `Tick`, `Loop`, `Prologue`, `Backlight`, `Cycle`, `Run` and `Main` give the whole control flow as functions of the inputs.
  - A cycle that does not finish yields `Stopped(Fault(message))` (the `handle_error` path) or `Stopped(Uncaught("IndexError"))`. The second is an exception nothing catches, and the script ends there.
- `WddProps` (`wdd_props.dfy`): the properties, as lemmas over those functions.
- `Device` (`terminal.dfy`): class `Terminal`, whose fields are the LED pins, the duty cycle and the screen trace.
  - Its methods are the script's functions, performing the same steps in place.
  - Each one is proved to leave the state and return the result that the matching `Wdd` function gives.

Inputs the script reads from hardware or the network become parameters:
- a `Fetch` per cycle: connect failure, or HTTP status plus lines;
- one switch reading per inner iteration.

## Model

| member | source | states |
|---|---|---|
| PyInt.ParseInt | code.py:143 | `int(text)` as the runtime parses it: `Some(value)` or `None` for ValueError. The lemmas below pin it down: the round trip with `str(n)`, one character, two digits, and the empty text. |
| PyInt.StripLeft | code.py:143 | `int()` drops leading whitespace. The result is a suffix of the text, every dropped character is whitespace, and the result does not start with whitespace. |
| PyInt.StripRight | code.py:143 | The same for trailing whitespace: a prefix, only whitespace dropped, and it does not end in whitespace. |
| PyInt.IntToString | code.py:143 | `str(n)`, which the script does not call. It is the independent inverse that `ParseIntRoundTrip` checks `int()` against. |
| PyInt.NatToString | code.py:143 | `str(n)` for a natural number is a non-empty run of digits with no leading zero. |
| PyInt.NatToStringValue | code.py:143 | `str(n)` is a valid digit run that spells exactly `n`. |
| PyInt.ParseDigitPart | code.py:143 | `int()` of a non-empty run of digits and underscores is the number its digits spell. |
| PyInt.ParseNegatedDigitPart | code.py:143 | `int()` of a minus sign followed by a digit run is the negated number. |
| PyInt.ParseIntRoundTrip | code.py:143 | `int(str(n)) == n` for every integer, negative ones included. |
| PyInt.ParseOneChar | code.py:143 | A one-character text converts exactly when it is a decimal digit or `_`. A digit gives its value and `_` gives 0. |
| PyInt.ParseEmpty | code.py:143-144 | The empty text raises ValueError. |
| PyInt.ParseTwoDigits | code.py:143 | Two digits convert to the two-digit number they spell, a leading zero included (`"07"` is 7). |
| Display.ColorFor | code.py:42-49 | `WBGT_COLOR[level]`, over the six-entry constant `Display.WBGT_COLOR`, exists exactly for Python indices -6..5. |
| Display.ColorContrast | code.py:40-49 | Every colour pair comes from the table. Text is white exactly on the blue and red backgrounds and black otherwise. For non-negative levels, white text means level 1 or 5. |
| Wdd.PySlice | code.py:188 | A Python slice with clamped bounds: its exact length, and each element is the source element at the same offset. |
| Wdd.Stoi | code.py:138-147 | `stoi` succeeds exactly when `int(text)` parses, with that value. Otherwise it ends in the "VALUE err" fault and returns no value. |
| WddProps.StoiRoundTrip | code.py:138-147 | `stoi` returns `n` for every integer written as Python writes it. |
| Wdd.GetData | code.py:160-179 | A connect failure gives "Wi-Fi error" and any status other than 200 gives "SERVER err". Status 200 yields the reply's lines unchanged. |
| Wdd.LevelAt | code.py:260 | `stoi(dat[k][7])` gives a value in 0..9 exactly when line `k` exists, has a character 7, and that character is a digit or `_`. A digit gives its value and `_` gives 0. A missing line or character is an uncaught IndexError; any other character is the VALUE fault. |
| Wdd.LevelAtIsStoi | code.py:260 | Once the character exists, reading the level is `stoi` of that one-character string. |
| Wdd.RoomLevel | code.py:260 | A room level was read only if the dataset has a line 3. |
| Wdd.HourField | code.py:188-190 | The text `dat0[5:][0:2]` that `blk_ctrl` hands to `stoi`. `HourOfShortLine` and `HourOfTwoDigits` state what it holds for short and well-formed lines. |
| Wdd.HourOf | code.py:188-190 | The hour is `int()` of `dat0[5:][0:2]` when that parses. Otherwise the VALUE fault, never a default hour. |
| Wdd.HourOfShortLine | code.py:188-190 | A line 0 that ends before character 5 gives an empty hour field and so the VALUE fault. |
| Wdd.HourOfTwoDigits | code.py:188-190 | Two digits at characters 5 and 6 are the hour, `10*d5 + d6`. |
| Wdd.BacklightDuty | code.py:191-201 | The duty is `BLK_CYCLE` exactly when the level is 5 or `6 <= hour <= 20`, and 0 otherwise. |
| Wdd.ShownLevel | code.py:286 | `stoi(dat[3+4*rl][7])`, the level of the location on show. `TickRedrawIff` proves a repaint is painted in it, and `ColourFollowsContent` that equal views give equal levels. |
| Wdd.ViewBase | code.py:278-279 | `rl = not switch`: the view starts at line 0 when the switch reads true (released) and at line 4 when it reads false (pressed). |
| Wdd.View | code.py:279 | The selected lines are at most four. There are exactly four when the dataset has eight lines. Each is the dataset line at the same offset from the view base, and a shorter view is exactly what remains of the dataset. |
| Wdd.LedStep | code.py:270-275 | At level 5 LEDY is negated and LEDR becomes the opposite of the new LEDY. At any other level both are `LED_OFF`. |
| Wdd.Boot | code.py:80-91 | The outputs at power-up: both LEDs lit, the backlight at `BLK_CYCLE`, nothing drawn. `Device.Terminal.constructor` is proved to produce it. |
| Wdd.StopScreens | code.py:128-134 | What `handle_error` draws: the message at level 4, then "reboot now" at level 3. An uncaught exception draws nothing. `LoopFaultEndsInReboot`, `CycleFaultEndsInReboot` and `RunFaultEndsInReboot` prove every fault ends on these two screens. |
| Wdd.Halt | code.py:124-135 | A stop: the stop screens are appended, the other outputs are kept, and no value is returned. `HandleError` and the other `Device.Terminal` methods are proved to end this way on each fault. |
| Wdd.Tick | code.py:269-288 | One pass of the `for` body. `TickRedrawIff`, `NoSecondRedraw`, `TickLeds`, `TickRepaints` and `TickCompletes` state its behaviour, and `Device.Terminal.Tick` is proved equal to it. |
| WddProps.TickRedrawIff | code.py:278-287 | An iteration leaves the screen and `dats_prev` unchanged exactly when the selected lines equal `dats_prev`. A repaint that carries on sets `dats_prev` to those lines and paints them at the level of the shown location's line 3. |
| WddProps.NoSecondRedraw | code.py:281-287 | After an iteration that carries on, the same switch position repaints nothing the next time. |
| WddProps.FirstTickRedraws | code.py:298 | The initial `""` equals no selection, so the first iteration repaints once and records the selection. |
| WddProps.ColourFollowsContent | code.py:279-286 | Equal selections of 8-line datasets have equal shown levels, so skipping a repaint never leaves stale colours. |
| WddProps.TickLeds | code.py:270-275 | An iteration sets the LEDs by `LedStep` and leaves the backlight untouched. |
| WddProps.TickCompletes | code.py:279-287 | With both level digits in 0..5, an iteration never stops. |
| WddProps.TickRepaints | code.py:281-287 | An iteration adds at most one four-line repaint and returns its lines, or `prev` when it adds none. |
| Wdd.Loop | code.py:268-288 | The `for` loop over the given switch readings, ending at the first iteration that stops. The `Loop*` lemmas state its behaviour, and `Device.Terminal.InnerLoop` is proved equal to it. |
| WddProps.LoopLast | code.py:268 | An unfolding fact of `Loop`'s definition, kept as a helper: one more reading runs one more iteration unless the loop has stopped. |
| WddProps.LoopOkStep | code.py:268 | An unfolding fact of `Loop`'s definition, kept as a helper: a loop that carries on to its end carried on up to its last reading, and its last iteration ran from there. |
| WddProps.LoopExtend | code.py:268 | One more reading after a prefix that carried on is one more iteration from where that prefix left off. |
| WddProps.LoopStopsForGood | code.py:124-135 | A stop inside the loop is final: later switch readings change nothing. |
| WddProps.LoopKeepsDuty | code.py:268-288 | The inner loop never changes the backlight duty. |
| WddProps.LoopLeds | code.py:270-275 | At room level 5, LEDY after `n` iterations is the start value when `n` is even and flipped when odd, and LEDR is its opposite. At other levels both are off after any iteration. |
| WddProps.LoopReturnsLastDrawn | code.py:281-291 | The loop only adds four-line repaints. It returns the lines of the last repaint as `dats_prev`, or the `dats_prev` it was given when it painted nothing. |
| WddProps.RepaintedCompose | code.py:281-291 | Two stretches of repaints in a row are one such stretch, with the later `dats_prev`. |
| WddProps.SteadySwitchDrawsOnce | code.py:268-288 | With the switch held still for a cycle there is at most one repaint. It happens exactly when the selection differs from `dats_prev`, and the returned `dats_prev` is that selection. |
| WddProps.WellFormedLoopCompletes | code.py:268-288 | A dataset whose two level digits are in 0..5 never stops the inner loop, whatever the switch does. |
| WddProps.LoopFaultEndsInReboot | code.py:124-135 | When the inner loop stops on a fault, the screen ends on the fault message followed by "reboot now". |
| Wdd.Prologue | code.py:258-261 | `get_data`, then the room level and `blk_ctrl`. It yields the lines and the room level, or the first stop. `Device.Terminal.Prologue` is proved equal to it. |
| Wdd.Backlight | code.py:260-261 | The room level from line 3, then the duty from level and hour. `CycleBacklight` and `CycleHourFault` state its effect, and `Device.Terminal.Backlight` is proved equal to it. |
| Wdd.Cycle | code.py:255-291 | One `wdd_term_loop` call: the prologue, then the loop. The `Cycle*` lemmas and scenarios state its behaviour, and `Device.Terminal.WddTermLoop` is proved equal to it. |
| WddProps.CycleRunsLoop | code.py:255-261 | When the fetch, the room level and the hour succeed, a cycle sets the duty from level and hour, then runs the inner loop on the fetched lines. |
| WddProps.CycleBacklight | code.py:191-201 | After such a cycle the duty is `BLK_CYCLE` exactly when the room level is 5 or `6 <= hour <= 20`, and 0 otherwise. |
| WddProps.CycleHourFault | code.py:188-190 | A time field that is not an integer ends the cycle in "VALUE err" and leaves the backlight untouched. |
| WddProps.CycleFaultEndsInReboot | code.py:124-135 | Any fault in a cycle leaves the fault message and then "reboot now" as the last two things drawn. |
| Wdd.Run | code.py:299-300 | `main`'s loop over the given cycles, threading `dats_prev` and ending at the first cycle that stops. `RunStopsForGood`, `RunExtend` and `RunFaultEndsInReboot` state its behaviour. |
| Wdd.Main | code.py:295-300 | `main` from power-up: " INITIALIZE" at level 0, then the cycles from `dats_prev = ""`. `Device.Terminal.MainLoop` is proved to return exactly `Main` when started from `Boot()`. |
| WddProps.MainIsRunFromBoot | code.py:295-300 | From power-up, the initialising message followed by the cycles is `Main`. `Device.Terminal.MainLoop` uses it to meet `Main`. |
| WddProps.RunStopsForGood | code.py:295-300 | A stopped run is not resumed, so later cycles never happen. |
| WddProps.RunExtend | code.py:299-300 | One more cycle after a prefix that carried on is one more `wdd_term_loop` call, fed the `dats_prev` that prefix returned. |
| WddProps.RunFaultEndsInReboot | code.py:124-135 | In whichever cycle a fault happens, the screen ends on the message and "reboot now". |
| WddProps.DatasetFields | code.py:188-190 | An 8-line dataset with digits at the level and time columns yields the room level, the outside level and the hour those digits spell. |
| WddProps.DaytimeCycle | code.py:255-261 | At 07:xx with room level 3, the fetch sets the backlight on and hands level 3 to the inner loop. |
| WddProps.RoomSideLoop | code.py:268-288 | With the switch on the room side throughout, that loop paints lines 0-3 exactly once, in level 3, and returns them. |
| WddProps.DaytimeScenario | code.py:255-291 | A whole 07:xx, level 3 cycle from `""`: the backlight is lit, lines 0-3 are painted once in level 3, and they become `dats_prev`. |
| WddProps.NightScenario | code.py:182-201 | At 23:xx with both levels 2 the cycle completes, with the backlight dark and both LEDs off. |
| WddProps.ServerErrorScenario | code.py:177-178 | A 503 reply draws "SERVER err" at level 4, then "reboot now" at level 3, and the cycle stops. |
| Device.Terminal.constructor | code.py:80-91 | Power-up: both LEDs lit, the backlight at `BLK_CYCLE`, nothing drawn. |
| Device.Terminal.Disp1Line | code.py:205-224 | Records one one-line repaint, only for a level the colour table has. |
| Device.Terminal.Disp4Line | code.py:227-252 | Records one four-line repaint, only for a level the colour table has. |
| Device.Terminal.HandleError | code.py:124-135 | Draws the message at level 4, then "reboot now" at level 3, and ends in `Fault(message)`. |
| Device.Terminal.Stoi | code.py:138-147 | Returns what `Wdd.Stoi` gives. The state is unchanged on success and follows the fault path otherwise. |
| Device.Terminal.GetData | code.py:150-179 | Returns what `Wdd.GetData` gives, with the fault screens on failure only. |
| Device.Terminal.BlkCtrl | code.py:182-201 | On a bad hour: the VALUE fault, with the fault screens. Otherwise only the duty changes, to `BacklightDuty(lvr, hour)`. |
| Device.Terminal.ReadLevel | code.py:260 | Returns `LevelAt`, with the fault screens only on the VALUE fault. |
| Device.Terminal.Prologue | code.py:258-261 | The fetch and backlight steps leave the state and result that `Wdd.Prologue` gives. |
| Device.Terminal.Backlight | code.py:260-261 | Reading the room level and then `blk_ctrl` leave the state and result that `Wdd.Backlight` gives. |
| Device.Terminal.WddTermLoop | code.py:255-291 | One `wdd_term_loop` call leaves the state and the returned `dats_prev` that `Wdd.Cycle` gives. |
| Device.Terminal.InnerLoop | code.py:268-288 | The `for` loop leaves the state and `dats_prev` that `Wdd.Loop` gives for the switch readings. Its invariant is that after `i` iterations the state is `Loop` of the first `i` readings. |
| Device.Terminal.Tick | code.py:269-288 | One iteration in place equals `Wdd.Tick`: LED update, selection, and a repaint only on change. |
| Device.Terminal.MainLoop | code.py:295-300 | `main` draws " INITIALIZE" at level 0, then threads `dats_prev` from `""` through the cycles, ending where `Wdd.Run` does. From the power-up state its result is exactly `Wdd.Main`. |

## Left out

Out of scope:
- **Network and HTTP.** Socket pool, SSL context, session and request (code.py:157-159, 173) are not modelled. The reply arrives as a `Fetch`: a connect failure, or a status with the body already split into lines.
- **Reusing a Wi-Fi link.** The model does not distinguish reusing a connected link from connecting anew (code.py:160-170).
- **Exceptions from the request.** Anything `requests.get` or `splitlines` could raise is not modelled.
- **`splitlines` itself.** Its line-break rules are not part of this model.
- **Rendering internals.** displayio groups, palettes, fonts and label placement (code.py:205-252) are not modelled; a repaint is recorded as a `Draw` event. `disp_4line` with a level digit 6..9 raises IndexError at `WBGT_COLOR[lv]`. The script first replaces the root group with an empty one, which the model does not record; it is an uncaught stop that draws nothing.
- **Watchdog, time and printing.** Watchdog feeding, `time.sleep`, `microcontroller.reset()` and every `print` are not modelled. The reset is the end of the run: a `Stopped` outcome.
- **Hardware setup.** Pin directions, the pull-up, the LCD reset pulse, SPI and the PWM peripheral (code.py:66-120) are not modelled, beyond the initial LED and duty values.
- **An endless `main`.** `main`'s `while True` becomes a run over a finite sequence of cycles. An endless run is the limit of these prefixes.
- PyInt.ParseInt: base prefixes (`0x`, `0o`, `0b`) are not modelled; every text is read in base 10. In the one- and two-character fields the script parses, a prefix leaves no digit after it, and the text is rejected in the runtime and in the model alike.
- **The exception argument of `handle_error`.** It is only printed, so it is left out.

What `code.py` does not do:
- **Colour table.** `WBGT_COLOR` holds no indicator colour.
- **No brightness envelope.** The LEDs only blink at level 5 or stay off; their brightness never varies over the loop.
- **Short datasets.** The line count is never checked. A short dataset raises an uncaught IndexError, or for the view simply yields fewer lines.
- **Success status.** Only status 200 counts as success.
- **Out-of-range levels.** A level digit 6..9 passes `stoi`. When it is the shown location's level at a repaint, `disp_4line` raises an uncaught IndexError at `WBGT_COLOR[lv]`. A room level 6..9 otherwise only drives the backlight, as a level other than 5, and turns the LEDs off.
