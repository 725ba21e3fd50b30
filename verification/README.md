# Camera-trigger remote: the shutter engine and its neighbours, in Dafny

This project models the firmware core of a camera-trigger remote and proves
properties of it. The firmware is Arduino C++. It presses a camera's shutter
with a servo, in one of three modes:

- **Timer**: a delay, then either a single shot or a hold for a release time.
- **T-Lapse**: a number of frames spread over a total time.
- **Interval**: one shot every N seconds until cancelled.

The modelled core has four parts:

- **The shutter execution engine** (`timer_system.h`), in `timer_system.dfy`
  and `timer_properties.dfy`. It covers:
  - the non-blocking servo driver;
  - the 500 ms servo start-up gate;
  - the Timer, T-Lapse and Interval state machine, ticked by `timer_system_update`;
  - the "completing" states, which wait for the servo or for a deadline;
  - cancel;
  - the countdown text.

  `Engine` is a value with one step function per C function, and the
  lemmas are stated on those. Class `TimerEngine` holds the same fields the
  C globals hold, and each of its methods is proved to produce the
  corresponding `Engine` step.
- **The option editor and page navigation** (`state_machine.h`), in
  `state_machine.dfy`. It covers:
  - the seconds stored per page and option;
  - the encoder edit with its clamping and the trigger sentinel of the Timer
    release (0xFFFFFFFF, or -1 as `int32_t`);
  - the T-Lapse rule of at most one frame per second;
  - the page text, `change_state`, `go_back`, `get_parent_state` and the
    loading timeout.

  Class `AppStateMachine` holds the state.
- **Remote commands** (`bluetooth.h`), in `bluetooth.dfy`. It covers:
  - the `TIMER:`, `TLAPSE:` and `INTERVAL:` parsers;
  - the dispatch of `process_ble_command` with the reply it sends;
  - the `start_remote_*` functions;
  - the status text.
- **Battery logic** (`battery.h`), in `battery.dfy`. It covers:
  - the fuel gauge's state-of-charge byte;
  - the level cap and the fill-bar width;
  - the screen chosen from the charger and power-switch pins;
  - the charging and demo animations;
  - the serial commands.

  Class `BatteryManager` holds the globals.

`common.dfy` gives the C integer widths and their conversions. `text.dfy`
models the parts of Arduino's `String` the firmware uses:
- `String(n)`;
- `toInt()`, taken to behave as C `atol`;
- `indexOf`, `substring` and `startsWith`.

**Time.** `millis()` is an explicit `now` parameter in milliseconds. Every
operation requires that no stored time stamp lies after `now`.

**Inputs from hardware.** Pin levels and the gauge's register contents are
parameters:
- `charging` and `switchOn` are the two pins;
- `rawSoc` and `version` are the register values.

**Integer widths.** The model writes out these fixed-width computations:
- `unsigned long` comparisons against `int` fields use `AsUint32`;
- the sentinel test reinterprets the value with `AsInt32`;
- the editor's `int32_t` step product and the release's `int32_t` sum wrap with `Int32Wrap`;
- the MM:SS minutes are kept in a `uint16_t`;
- the battery arithmetic is `uint8_t`.

The widths it does not write out are listed under "Left out".

**Actuator and start values.**
- The firmware has a single actuator, the servo. There is no electronic
  contact-closure driver and no actuator selector.
- `start_*` does not clamp its inputs. The local starts take the page
  values as they are, and the remote parsers reject out-of-range values
  instead of clamping them.

## Model

| member | source | states |
|---|---|---|
| Common.Int32Wrap | state_machine.h:274 | the `int32_t` result of a 32-bit sum lies in the 32-bit range, agrees with the exact value modulo 2^32, and is the exact value whenever that fits |
| Common.AsInt32 | state_machine.h:258 | reinterpreting a `uint32_t` as `int32_t` gives a value in the 32-bit range that converts back to the same `uint32_t`; it is -1 exactly for 0xFFFFFFFF and non-negative exactly below 2^31 |
| Text.Decimal | bluetooth.h:305 | `String(n)` is a non-empty string of digits without a leading zero (unless n is 0) |
| Text.ToIntOfDecimal | bluetooth.h:380 | `toInt` reads back exactly the number `String(n)` wrote |
| Text.IndexOf | bluetooth.h:375-376 | `indexOf(c, from)` is -1 or a position at or after `from` holding `c`, and no earlier position from `from` on holds `c` |
| Text.Substring | bluetooth.h:380-381 | `substring(left, right)` is the slice between the bounds when they are in order and in range, and runs to the end when `right` is past it; bounds given out of order are swapped |
| Text.ReadClock | timer_system.h:810-811 | a clock label that reads back holds at least two minute digits, a ':' and exactly two second digits, and they denote the value divided by 60 and its remainder |
| Text.ClockTextRoundTrip | timer_system.h:808-812 | the "MM:SS" text of `n` seconds reads back as `n`, so it shows `n / 60` in at least two digits, then ':', then `n % 60` in exactly two |
| StateMachine.SentinelShowsShot | state_machine.h:202-207 | the trigger sentinel is shown as "SHOT" in every format |
| StateMachine.ClockFormatReadsBack | state_machine.h:209-214 | MM:SS text shows the minutes (cut to 16 bits) in at least two digits and the seconds modulo 60 in exactly two, so it reads back as the seconds up to the 16-bit minutes field |
| StateMachine.SecondsFormatReadsBack | state_machine.h:215-217 | SS text has at least two digits and denotes the seconds |
| StateMachine.CountFormatReadsBack | state_machine.h:218-221 | COUNT (and any unknown format) shows the plain decimal number, which reads back as the value |
| StateMachine.GetOptionValueSelects | state_machine.h:233-243 | index 0 reads the first option of the page, any other index the second, and a page without options gives 0 |
| StateMachine.ReleaseLeavesTriggerOnlyUpwards | state_machine.h:257-271 | on the Timer release in trigger mode, a step up stores 0 and any other step is blocked with nothing changed |
| StateMachine.ReleaseEditFromTime | state_machine.h:273-288 | on the Timer release holding a time, a step below zero enters trigger mode, a step above the maximum stores the maximum, and any other step is stored exactly, the step being the `int32_t` sum; a negative reading other than -1 is reset to 0 |
| StateMachine.ReleaseSumWraps | state_machine.h:274-278 | a release of 0x7FFFFFFF stepped up by one wraps negative and enters trigger mode |
| StateMachine.EditClampsToBounds | state_machine.h:290-302 | every other option ends inside its min..max bounds, and a step (the `int32_t` product added in 64 bits) that stays in bounds is stored exactly |
| StateMachine.TlapseFramesBoundedByTotal | state_machine.h:304-322 | after any T-Lapse edit, the frame count is at most the total seconds and the frame maximum equals the total |
| StateMachine.EditTouchesOnlyTarget | state_machine.h:245-322 | an edit changes only the option it targets, apart from the T-Lapse frame limit |
| StateMachine.ParentReachesMain | state_machine.h:412-432 | the main page is its own parent, every page other than wire settings has the main page as parent, and two steps back always reach the main page |
| StateMachine.AppStateMachine.constructor | state_machine.h:376-396 | starts on the loading page with editing off; a page whose values were not loaded (empty title) gets the `values_init` defaults; every page's text is rendered from its values |
| StateMachine.AppStateMachine.UpdatePageContentFromValues | state_machine.h:338-371 | the text of a template page becomes the rendering of its values; everything else is unchanged |
| StateMachine.AppStateMachine.UpdateOptionValue | state_machine.h:245-336 | the page's values become the edited values, and its text their rendering; other pages are untouched; a blocked step or a non-template page changes nothing; a save is requested only when settings are ready |
| StateMachine.AppStateMachine.ChangeState | state_machine.h:398-403 | the page left becomes the previous page, the new one the current page, and editing mode is off |
| StateMachine.AppStateMachine.GoBack | state_machine.h:405-410 | moves to the parent of the current page |
| StateMachine.AppStateMachine.CheckLoadingTimeout | state_machine.h:438-447 | leaves the loading page for the main page exactly when the loading time has passed |
| TimerSystem.Clamp | timer_system.h:192-196 | the commanded angle is the requested one when within 0..180, and otherwise the nearer bound |
| TimerSystem.TimerEngine.constructor | timer_system.h:227-257 | the engine starts idle, with every counter and flag cleared, the servo at rest and the start-up gate closed |
| TimerSystem.TimerEngine.MoveServo | timer_system.h:192-196 | the servo angle becomes the clamped position and nothing else changes |
| TimerSystem.TimerEngine.ActivateServo | timer_system.h:198-206 | starts a press (pressed angle, start time now) unless one is in progress; see TimerProperties.ActivateStartsOnePress |
| TimerSystem.TimerEngine.UpdateServo | timer_system.h:208-217 | ends a press that has lasted the activation time; see TimerProperties.UpdateEndsPressIff |
| TimerSystem.TimerEngine.Cancel | timer_system.h:410-420 | the engine becomes the `Engine.Cancel` state, characterised by TimerProperties.CancelResets |
| TimerSystem.TimerEngine.StartTimer | timer_system.h:327-364 | the engine becomes the `Engine.StartTimer` state, characterised by TimerProperties.StartTimerMapsSentinel and InitGateBlocksEngine |
| TimerSystem.TimerEngine.StartTlapse | timer_system.h:366-390 | the engine becomes the `Engine.StartTlapse` state: T-Lapse running from now with no frames, total and frames read from the page |
| TimerSystem.TimerEngine.StartInterval | timer_system.h:392-408 | the engine becomes the `Engine.StartInterval` state: Interval running from now with no frames |
| TimerSystem.TimerEngine.UpdateTimer | timer_system.h:425-468 | the engine becomes the `Engine.UpdateTimer` state (single shot, hold start or hold end; see the Timer lemmas) |
| TimerSystem.TimerEngine.UpdateTlapse | timer_system.h:470-506 | the engine becomes the `Engine.UpdateTlapse` state (one due frame, then completion exactly once) |
| TimerSystem.TimerEngine.UpdateInterval | timer_system.h:508-522 | the engine becomes the `Engine.UpdateInterval` state (shoot and restart once the interval has passed) |
| TimerSystem.TimerEngine.Tick | timer_system.h:259-322 | the engine becomes the `Engine.Tick` state, which keeps the invariant (TimerProperties.TickKeepsInv) |
| TimerProperties.ActivateStartsOnePress | timer_system.h:198-206 | a press in progress is not restarted; otherwise the servo goes to the pressed angle and the press starts now |
| TimerProperties.UpdateEndsPressIff | timer_system.h:208-217 | `servo_update` changes the servo exactly when a press has lasted the activation time, and then returns it to rest with the press over |
| TimerProperties.InitGateBlocksEngine | timer_system.h:259-273 | before the servo has initialised, a tick touches neither runtime nor servo and a local Timer start does nothing; the gate opens 500 ms after the tick that recorded its start |
| TimerProperties.StartTimerMapsSentinel | timer_system.h:335-353 | the delay and release come from the Timer page, a sentinel release becomes 0, and the run starts now in the delay with no frames |
| TimerProperties.DelayWaits | timer_system.h:431-432 | while fewer whole seconds than the delay have passed, the Timer changes nothing |
| TimerProperties.TriggerFiresOnce | timer_system.h:432-443 | with release 0, once the delay has passed: one press, frame count 1, logic done, waiting, deadline now + activation + 500 ms, state TIMER_COMPLETING_SERVO |
| TimerProperties.HoldStarts | timer_system.h:444-452 | with a release, once the delay has passed: hold state, phase restarted now, servo at the pressed angle, frame count 1 |
| TimerProperties.HoldEnds | timer_system.h:456-465 | after the release time the servo rests and the engine is idle with no frames, nothing waiting and the logic not done; before it, nothing changes |
| TimerProperties.TlapseAtMostOneFrame | timer_system.h:470-482 | a tick takes at most one frame, and takes one exactly when the expected count exceeds the frames taken and frames remain |
| TimerProperties.TlapseCompletesOnce | timer_system.h:484-503 | the first tick that finds the time up or every frame taken finishes the T-Lapse: it waits for the servo (deadline now + activation + 500 ms) if still needed, and otherwise goes idle; afterwards a tick only takes due frames |
| TimerProperties.TlapseWithoutFramesEndsAtOnce | timer_system.h:470-503 | a T-Lapse with no frames finishes on its first tick without taking a frame |
| TimerProperties.IntervalKeepsRunning | timer_system.h:508-522 | Interval never ends by itself: each tick either only updates the servo, or shoots once and restarts the interval at now |
| TimerProperties.CompletingExitsIff | timer_system.h:280-293 | a completing state returns to idle exactly when the servo has stopped or the deadline has passed, clearing both flags; otherwise the runtime stays as it is |
| TimerProperties.CompletingIsBounded | timer_system.h:285-293 | past the deadline, or once the press has lasted its activation time, a tick leaves the completing state |
| TimerProperties.OnlyWayIntoCompleting | timer_system.h:425-506 | a completing state is entered only from a running Timer delay or T-Lapse, with the logic done, waiting set and the deadline now + activation + 500 ms |
| TimerProperties.CancelResets | timer_system.h:410-420 | from any state: idle, no frames, nothing waiting, the logic not done, the servo at rest; every other runtime field (mode, times, totals, deadline), the press in progress, the configuration and the start-up gate are kept; cancelling twice is cancelling once |
| TimerProperties.ExpectedFramesMonotone | timer_system.h:472-474 | the number of frames due never falls as time passes |
| TimerProperties.ExpectedFramesStep | timer_system.h:472-480 | with at most one frame per second, one more second makes at most one more frame due |
| TimerProperties.ExpectedFramesReachAllAtTotal | timer_system.h:472-474 | every frame is due once the total time has passed, and not all of them before |
| TimerProperties.StartsEstablishInv | timer_system.h:327-420 | the initial engine, every start and cancel leave the engine consistent (each state in its mode, frames in bounds, flags matching the state) |
| TimerProperties.UpdateTimerKeepsInv | timer_system.h:425-468 | a Timer step keeps the engine consistent |
| TimerProperties.UpdateTlapseKeepsInv | timer_system.h:470-506 | a T-Lapse step keeps the engine consistent, the frame count never above the total frames |
| TimerProperties.UpdateIntervalKeepsInv | timer_system.h:508-522 | an Interval step keeps the engine consistent |
| TimerProperties.TickKeepsInv | timer_system.h:259-322 | every tick keeps the engine consistent and stores no time after now |
| TimerProperties.CountdownReadsBack | timer_system.h:804-823 | the countdown text reads back as the seconds left, never below zero (minutes then two-digit seconds, by `ReadClock`), preceded by the elapsed time and " / " exactly when both are asked for and time has elapsed |
| TimerProperties.OverlayCountdownClamps | timer_system.h:709-711 | for values that fit an `int`, the overlay's 32-bit countdown is the plain difference cut at zero |
| TimerProperties.TimerOverlayLabels | timer_system.h:696-744 | the Timer overlay shows "SHOT"/"Completing..." while completing, the countdown with "+release" or "SHOT" during the delay, and the countdown with "HOLD" during the hold |
| TimerProperties.TimerOverlayShowsCountdown | timer_system.h:709-736 | the time label of the delay and the hold reads back as the seconds left in the phase |
| Bluetooth.SplitThree | bluetooth.h:373-378 | the three fields put back together with colons give the parameters, the first two hold no colon, and the split succeeds exactly when there are at least two colons |
| Bluetooth.SplitTwo | bluetooth.h:411-414 | the two fields put back together with a colon give the parameters, the first holds no colon, and the split succeeds exactly when there is a colon |
| Bluetooth.ParseTimerCommand | bluetooth.h:371-388 | an accepted command has a delay and release in 0..3599 and at least two colons after the prefix |
| Bluetooth.ParseTlapseCommand | bluetooth.h:390-407 | an accepted command has a total in 1..3599, frames in 0..total, and two colons |
| Bluetooth.ParseIntervalCommand | bluetooth.h:409-423 | an accepted command has an interval in 1..3599 and a colon |
| Bluetooth.SplitThreeOfDigits | bluetooth.h:373-382 | fields written between colons, the first two of digits, are split back out unchanged |
| Bluetooth.TimerCommandRoundTrip | bluetooth.h:371-388 | a TIMER command built from numbers parses back to them, with start exactly when the third field is 1; it is refused exactly when a time is above 3599 |
| Bluetooth.TlapseCommandRoundTrip | bluetooth.h:390-407 | a TLAPSE command parses back to its numbers; it is refused exactly when the total is outside 1..3599 or the frames exceed it |
| Bluetooth.IntervalCommandRoundTrip | bluetooth.h:409-423 | an INTERVAL command parses back to its numbers; it is refused exactly when the interval is outside 1..3599 |
| Bluetooth.RemoteReleaseIsNeverSentinel | bluetooth.h:371-388 | an accepted TIMER command never carries the trigger sentinel: its release is a real number of seconds |
| Bluetooth.RemoteStartsMatchLocal | bluetooth.h:425-479 | a remote start sets the runtime exactly as the local start does for the same values: Timer when initialised and not the sentinel, T-Lapse and Interval always |
| Bluetooth.RemoteStartsEstablishInv | bluetooth.h:425-479 | every remote start leaves the engine consistent, whatever it was doing |
| Bluetooth.StartRemoteTimer | bluetooth.h:425-440 | the engine becomes the remote Timer start: delay in the delay phase from now, no frames, servo at rest, with no start-up gate |
| Bluetooth.StartRemoteTlapse | bluetooth.h:442-463 | the engine becomes the remote T-Lapse start |
| Bluetooth.StartRemoteInterval | bluetooth.h:465-479 | the engine becomes the remote Interval start |
| Bluetooth.ProcessTimerCommand | bluetooth.h:298-312 | the engine and reply are those of the TIMER branch |
| Bluetooth.ProcessTlapseCommand | bluetooth.h:313-327 | the engine and reply are those of the TLAPSE branch, whose success path `TlapseCommandDispatch` states |
| Bluetooth.ProcessIntervalCommand | bluetooth.h:328-342 | the engine and reply are those of the INTERVAL branch, whose success path `IntervalCommandDispatch` states |
| Bluetooth.ProcessKeywordCommand | bluetooth.h:343-368 | the engine and reply are those of SIMPLE, CANCEL, STATUS, DISCONNECT or the unknown-command reply |
| Bluetooth.ProcessBleCommand | bluetooth.h:297-369 | the engine and the reply are those of `Dispatch`, characterised by the dispatch lemmas below |
| Bluetooth.TimerCommandDispatch | bluetooth.h:298-312 | a well-formed TIMER command with start runs the Timer and replies "OK:TIMER_STARTED:d:r"; without start it only replies "OK:TIMER_SET:d:r" |
| Bluetooth.TlapseCommandDispatch | bluetooth.h:313-327 | a well-formed TLAPSE command with start runs the T-Lapse and replies "OK:TLAPSE_STARTED:t:f"; without start it only replies "OK:TLAPSE_SET:t:f" |
| Bluetooth.IntervalCommandDispatch | bluetooth.h:328-342 | a well-formed INTERVAL command with start runs the Interval and replies "OK:INTERVAL_STARTED:i"; without start it only replies "OK:INTERVAL_SET:i" |
| Bluetooth.MalformedCommandReplies | bluetooth.h:297-342 | a command with a settings prefix that does not parse gets that prefix's format error and changes nothing |
| Bluetooth.KeywordsAreNotPrefixed | bluetooth.h:25-31 | the keyword commands start with none of the settings prefixes, so the prefix tests never take them |
| Bluetooth.CancelCommandReplies | bluetooth.h:349-357 | CANCEL cancels a running engine with "OK:ALL_CANCELLED"; an idle one is left exactly as it was with "OK:NOTHING_TO_CANCEL" |
| Bluetooth.SimpleCommandTriggers | bluetooth.h:343-348 | SIMPLE presses the shutter once in any mode without touching the runtime, and replies "OK:SIMPLE_TRIGGERED" |
| Bluetooth.UnknownCommandReplies | bluetooth.h:366-368 | any other command is echoed back as unknown and changes nothing |
| Bluetooth.OnlyActionsChangeEngine | bluetooth.h:297-369 | only a start, SIMPLE or CANCEL can change the engine |
| Bluetooth.StatusNamesStates | bluetooth.h:489-514 | the status begins "STATUS:", the running states have distinct names, and the completing states all read "UNKNOWN" |
| Battery.ReadSoc | battery.h:106-112 | a raw 0xFFFF is a failed read; otherwise the level is the high byte, capped at 100 |
| Battery.ClampLevel | battery.h:188-190 | the stored level is the given one when at most 100, and 100 otherwise |
| Battery.FillWidthBounds | battery.h:255-259 | for a level up to 100 the fill is 0..20 pixels wide, empty exactly at 0%, full at 100% |
| Battery.FillWidthMonotone | battery.h:255-259 | a higher level never gives a narrower fill |
| Battery.SystemStateFor | battery.h:274-283 | the charger pin alone decides between the charging screens and the rest; both pins decide the screen, and the gauge decides between normal and demo |
| Battery.BounceStep | battery.h:311-318 | (corrected, see Findings) the level moves by exactly `step` while it stays short of the end it is heading for, and otherwise stops at that end (100, or the floor) and turns; the result is at most 100, and a level between the floor and 100 stays there |
| Battery.StepsAgreeWithoutWrap | battery.h:311-345 | where no 8-bit wrap-around can happen, the step as written equals the corrected step |
| Battery.ChargeStepWrapsAsWritten | battery.h:311-318 | (as written, see Findings) going down from 2% with the gauge at 0%, the charging step shows 100% |
| Battery.DemoStepWrapsAsWritten | battery.h:338-345 | (as written, see Findings) going down from 2%, the demo step shows 100% |
| Battery.KeywordCommand | battery.h:403-424 | a command names a keyword exactly when it is one of the eight keyword texts |
| Battery.ParseSerialCommandAsWritten | battery.h:395-424 | (as written, see Findings) the parser only ever yields a level command or nothing |
| Battery.KeywordsSetLevelZeroAsWritten | battery.h:396-403 | (as written, see Findings) every keyword command is read as "set the level to 0%" |
| Battery.ParseSerialCommand | battery.h:395-424 | (corrected, see Findings) a keyword is never read as a level command; a level command carries the number after "bat " |
| Battery.KeywordsRecognised | battery.h:403-424 | the corrected parser yields each keyword's own command |
| Battery.ParsersAgreeOffKeywords | battery.h:395-401 | on every command that is not a keyword, the corrected parser agrees with the code as written |
| Battery.LevelCommandRoundTrip | battery.h:396-401 | "bat n" sets the level to n exactly when n is at most 100, and is ignored otherwise |
| Battery.InitialModel | battery.h:174-186 | 85%, demo on, and the gauge available (on the normal screen) exactly when its version register answers |
| Battery.UpdateFollowsPins | battery.h:263-283 | within 500 ms of the last update nothing changes; otherwise the pins are recorded and the screen is the one the pins call for, except that a failed gauge read on the normal screen switches to the demo and drops the gauge; both levels stay percentages |
| Battery.SensorLossIsPermanent | battery.h:287-298 | the gauge is given up only after a failed read on the normal screen, and an update never brings it back |
| Battery.GaugeReadingIsShown | battery.h:287-360 | outside the charging animation, a successful gauge read becomes both the real and the shown level |
| Battery.DemoStaysInBand | battery.h:333-347 | the demo keeps a level that is between 10% and 100% within that band |
| Battery.ChargeAnimationFloor | battery.h:301-320 | a downward charging step, with or without a gauge, moves 3% or stops at the reading (fresh when the gauge answers) and turns up, never going below it |
| Battery.ChargeAnimationPace | battery.h:300-320 | the charging animation is still within 800 ms of its last move; past that, it records the time, takes a successful reading as the floor, and moves 3% up or down, or stops at 100 or the floor and turns |
| Battery.DemoAnimationPace | battery.h:333-347 | the demo is still while disabled or within 2 s of its last move; past that, it records the time and moves 5% up or down, or stops at 100 or 10% and turns |
| Battery.LevelCommandSetsLevel | battery.h:365-401 | "bat n" with n at most 100 stops the demo, selects the demo screen and shows exactly n; a larger n changes nothing |
| Battery.DemoCommandsToggle | battery.h:372-379 | "bat demo on" enables and shows the demo; "bat demo off" disables it and returns to the normal screen only when the gauge is available |
| Battery.BatteryManager.constructor | battery.h:174-186 | the globals start as `InitialModel` for the gauge's version register |
| Battery.BatteryManager.Level | battery.h:193 | the shown level is a percentage |
| Battery.BatteryManager.SetLevel | battery.h:188-190 | the level becomes the capped value and nothing else changes |
| Battery.BatteryManager.SetCharging | battery.h:192 | only the charging flag changes |
| Battery.BatteryManager.Update | battery.h:263-363 | the globals become `BatteryModel.Update` of the old ones (with the corrected step), and both levels stay percentages; UpdateFollowsPins, SensorLossIsPermanent, ChargeAnimationPace and DemoAnimationPace state that update's throttle, screens, failed-read fallback, steps and periods |
| Battery.BatteryManager.SetRealBatteryLevel | battery.h:365-370 | the demo stops, the demo screen is selected and the capped level is shown |
| Battery.BatteryManager.ToggleDemo | battery.h:372-379 | the demo flag becomes `enable`; enabling selects the demo screen, and disabling selects the normal screen only with the gauge available |
| Battery.BatteryManager.HandleSerialCommand | battery.h:395-425 | the globals become the effect of the command as the corrected parser reads it; the commands that only print change nothing |

## Left out

- Display, overlays and the rest of the UI: page building, labels, colours, `show_current_page` and `update_all_battery_widgets`. Only the text the labels would show is modelled.
- The BLE stack: enabling and disabling, callbacks, the heartbeat disconnect, `send_ble_response` and `delay(100)`. Only the reply string is modelled. DISCONNECT produces its reply but the link itself is not modelled.
- Flash storage: the values loaded at start-up are an input, and the save after an edit is a counter.
- I2C and GPIO: register contents and pin levels are parameters.
- `Serial` output: the battery status, pins and state printouts change nothing and are not modelled. So is the `"soc + \"%\""` text of "bat max17048".
- The 32-bit wrap of `millis()`: time is an unbounded natural number that never goes backwards.
- `format_countdown_time` subtracts the elapsed seconds from the total in a 32-bit `int`. The model subtracts unbounded integers, so that subtraction's overflow is not modelled. The seconds the firmware passes stay far below 2^31.
- Floating point, in the completion deadline: `millis() + servoActivationTime*1000 + 500` is a float sum in the source. Past 2^24 ms of uptime it is rounded to a multiple of a power of two. The model adds exact milliseconds.
- Floating point. `frameInterval` is computed exactly as elapsed·frames/total, rounded down, with no float rounding.
- A T-Lapse with frames but a total of 0 divides by a float infinity in the source. The model counts no frames due in that case.
- `servoActivationTime` (a float number of seconds) is an integer number of milliseconds, 600 by default.
- `servo_init`'s computation of the end position from the wire percentage is not modelled. The start and end positions are configuration.
- `String::toInt` is assumed to behave as C `atol`: leading white space, an optional sign, then digits, and 0 when there are none. Its result is unbounded, so the overflow of `long` and of the `int` it is stored in is left out.
- Text.Decimal: covers non-negative numbers only, since every number the firmware prints through it is non-negative.
- The numeric values of `VALUE_FORMAT_*` and `VALUE_INCREMENT_SMALL` are not part of this model. The formats are a datatype with an "unknown" case, and the increment is taken to be 1.
- The `ui.h`, `hardware.h`, `settings.h`, `config.h` and `images.h` files are not part of this model.

## Findings

| source | as written | input that shows it | evidently intended | confidence | as-written member | corrected member |
|---|---|---|---|---|---|---|
| battery.h:311-318 | the charging animation computes `current_display - 3` in `uint8_t`, so a level below 3% wraps to 253..255 and misses the floor; `battery_set_level` then caps it at 100 | level 2%, going down, gauge reading 0%: the bar jumps to 100% and keeps going down | stop at the gauge's reading and turn up (0%, going up) | not executed | Battery.ChargeStepWrapsAsWritten | Battery.BounceStep |
| battery.h:338-345 | the demo animation computes `current_level - 5` in `uint8_t`, with the same wrap | level 2% (left by a gauge that read 2% and then failed), going down: the bar jumps to 100% | stop at the 10% floor and turn up | not executed | Battery.DemoStepWrapsAsWritten | Battery.BounceStep |
| battery.h:395-424 | the `startsWith("bat ")` test comes first, and every keyword command begins with "bat ", so no keyword branch is ever reached; `toInt` of "demo on" is 0 | "bat demo on" sets the level to 0%, stops the demo, and does not enable it | the eight keyword commands act as their branches say, and "bat n" sets the level | not executed | Battery.KeywordsSetLevelZeroAsWritten | Battery.ParseSerialCommand |
