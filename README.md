# LED arbitration and AS3665 blink sequencer

A Dafny model of the LED driver in `liblights/lights.c` and the sequencer constants it takes from `liblights/as3665-huashan.h`.

The driver arbitrates one bank of three RGB LED units between two requesters: the notification request and the battery (charging) request.
- On every update, `handle_leds_battery_locked` picks the visible state. NOTIFICATIONS wins when its colour is lit; otherwise the state is BATTERY.
- `set_light_leds_locked` then works in four stages:
  - It keeps a charging witness on unit 1 while the battery request is lit.
  - It decides whether the per-unit currents and the blink program must be rewritten. To decide, it compares the request with the retained target, colour and delays.
  - It writes the request colour to the selected units.
  - It runs the sequencer's run/hold machine.
- A blinking request is encoded into a text program for the AS3665 sequencer. The program has five hexadecimal fields: the ramp codes, the on and off times in 1/13-second steps (at most 63), and a 9-bit trigger mask. These fields are printed into a fixed template.

Modules:

- `HexFormat` (hexformat.dfy) models the printf fragment the template uses: literal characters and `%0Nx` conversions.
  - `Parse` splits a template into pieces, and `Render` prints values into it.
  - `PadHex` is one conversion. `HexValue` reads a spelling back, and the round trip is proved.
- `As3665` (as3665.dfy) holds the constants of `as3665-huashan.h`.
  - The template is written out as its fixed runs, so the proofs never take the literal apart character by character.
  - It proves the template's shape, what printing five values gives, the 71-character length and the trigger mask algebra.
- `Sequencer` (sequencer.dfy) models the value computation of `write_as3665_program`: `hex_limits`, the step counts, the ramp codes and the trigger. `ProgramText` is the exact text loaded into the sequencer, and the lemmas read every field back out of it.
- `LightsSpec` (lights_spec.dfy) models one call as functions of the retained statics (`Globals`) and the request:
  - `Decide` gives the unit range, target, update flags and flash mode.
  - `Retain` gives the new dedup keys.
  - `BranchWrites` gives the charging witness prelude.
  - `ProgramStep` is the run/hold machine.
  - `Step` is the whole LED path, and `Handle`/`Apply` are the entry points.
  - Every control-file write is an `Event` on an abstract `Channel`.
- `Lights` (lights.dfy) has the class `LightsDevice`.
  - Its fields are the module statics plus a `trace` of the writes issued.
  - Its methods follow the C functions statement by statement, with loops over the colour channels and the units.
  - Each method is proved to leave exactly the state and the trace that the `LightsSpec` functions describe.
- `LightsProps` (lights_props.dfy) proves the driver's behaviour over those functions:
  - which state is shown;
  - which writes reach which unit;
  - the dedup rules;
  - the run/hold machine;
  - that blinking is suppressed by a zero delay;
  - what a run of calls does.

The driver behaves as follows, which one might not expect, and the model does the same:

- Step counts are truncated toward zero, not rounded: 999 ms gives 12 steps.
- The entry points and `set_light_leds_locked` return 0. They do not OR together the write errors.
- The state never returns to OFF once either entry point has been called, even when both requests are dark. In that case it is BATTERY.
- Once the colour has been recorded, an identical repeated blinking request reloads and restarts the program, so the driver is not idempotent. The colour is recorded from the second call after a target change on. So after a target change that finds a different colour recorded, the second identical call keeps the program and the third reloads it. When the colour recorded before the change already equals the request's, the second call reloads it.
- The delays passed to the sequencer are the request's own, with no fallback to the retained pair when the request is not TIMED.
- A freshly loaded program is started in the same call: the mode is reset to OFF and then set to RUN.
- The "already BATTERY" test of line 332 sees the state that `handle_leds_battery_locked` has just chosen. So the "notification dark" test of line 338 always holds in that branch.

## Model

| member | source | states |
|---|---|---|
| HexFormat.PadHex | liblights/lights.c:250-251 | `%0Nx` spells the value in lower-case hex digits, at least N wide, with the unpadded spelling as its suffix |
| HexFormat.PadHexRoundTrip | liblights/lights.c:250-251 | reading a zero-padded hex field back gives the value printed |
| HexFormat.PadHexWidth | liblights/lights.c:250-251 | a value below 16^N prints in exactly N digits |
| As3665.ProgramTemplateShape | liblights/as3665-huashan.h:19 | the template holds exactly five conversions, widths 2, 2, 2, 2, 3, between its fixed runs |
| As3665.ProgramTemplateRender | liblights/lights.c:250-251 | printing five values into the template gives the fixed runs with the five padded spellings between them |
| As3665.ProgramTextFits | liblights/lights.c:229-251 | for byte-sized fields and a trigger below 0x1000 the printed program is 71 characters, well within the 180-byte buffer |
| As3665.BlinkMasksPartition | liblights/as3665-huashan.h:24-26 | SIDES (438) and MIDDLE (73) are disjoint, their union is ALL (511), MIDDLE pulses outputs k with k % 3 == 0, SIDES the others, ALL every output |
| As3665.BlinkMasksFitField | liblights/as3665-huashan.h:24-26 | every trigger mask is at most 0x1ff and prints in exactly three hex digits |
| Sequencer.HexLimits | liblights/lights.c:149-155 | `hex_limits` returns the minimum of value and max |
| Sequencer.StepCount | liblights/lights.c:236-238 | the step count is at most 63, 0 for a delay of 0 or below, and otherwise the largest count of steps (13 per second) that fits in the delay, unless it is capped at 63 |
| Sequencer.StepCountExamples | liblights/as3665-huashan.h:30 | 1000 ms gives 0x0d, 999 ms truncates to 12, 0 and -1 ms give 0, 4847 ms and more saturate at 63 |
| Sequencer.StepCountMonotone | liblights/lights.c:236-238 | a longer delay never gives fewer steps |
| Sequencer.Trigger | liblights/lights.c:239-247 | the trigger mask chosen for a target fits nine bits |
| Sequencer.TriggerCoversTargetUnits | liblights/lights.c:239-247 | the trigger pulses output k exactly when unit k % 3 + 1 is one the target addresses (MIDDLE unit 1, SIDES units 2 and 3, ALL and unknown every unit) |
| Sequencer.RampUpField | liblights/lights.c:235 | the ramp-up field is a byte with its low bit cleared |
| Sequencer.RampDownField | liblights/lights.c:237 | the ramp-down field is a byte with its low bit set |
| Sequencer.SmoothRampCodes | liblights/as3665-huashan.h:27-28 | the smooth ramp constants pass the byte cap and the direction bit unchanged: 0x02 up, 0x03 down |
| Sequencer.ProgramFields | liblights/lights.c:235-247 | `values[0..4]` are ramp-up, on steps, ramp-down, off steps, trigger; the first four below 0x100, the trigger below 0x1000 |
| Sequencer.ProgramText | liblights/lights.c:250-251 | the loaded program is always 71 characters, within the 180-byte buffer |
| Sequencer.ProgramTextIsPrinted | liblights/lights.c:250-251 | that text is what printing the five values into the template gives |
| Sequencer.ProgramTextDecodes | liblights/lights.c:235-251 | the printed program starts with the fixed head, and its five slots read back as the ramp codes, the two step counts and the trigger, followed by the newline |
| LightsSpec.ColorChannels | liblights/lights.c:321-323 | each of the three extracted channels is a byte |
| LightsSpec.ColorChannelsRecompose | liblights/lights.c:321-323 | the three channels are the low 24 bits of the colour, red highest |
| LightsSpec.RgbToBrightness | liblights/lights.c:160-167 | the brightness is in 0..255 and lies between the smallest and the largest channel |
| LightsSpec.ClampBacklight | liblights/lights.c:179-185 | at or below OFF gives OFF; above it the level is kept, or raised to MIN, or lowered to MAX, so it lies in [MIN, MAX] |
| LightsProps.IsLitIffSomeChannel | liblights/lights.c:141-145 | a request is lit exactly when one of its three colour channels is nonzero |
| LightsProps.GreyBrightness | liblights/lights.c:160-167 | a grey colour of level v is lit iff v != 0 and has brightness v (the weights add up to 256) |
| LightsProps.ClampIdempotent | liblights/lights.c:179-185 | clamping twice is clamping once |
| LightsProps.ApplyChoosesState | liblights/lights.c:409-451 | after either entry point the requests are stored, the state is NOTIFICATIONS iff the notification request is lit, BATTERY otherwise, and never OFF |
| LightsProps.NeverOffAgain | liblights/lights.c:409-423 | after any non-empty run of calls the state is not OFF and tells whether the stored notification request is lit |
| LightsProps.HandleBranches | liblights/lights.c:329-345 | inside an entry point the charging branch follows from the two requests alone, and the unit-1-only branch always finds the notification dark |
| LightsProps.StepKeepsRequests | liblights/lights.c:354-361 | the LED path leaves both requests and the state unchanged; the temporary BATTERY state of the preview is restored |
| LightsProps.ColorWritesMembers | liblights/lights.c:213-218 | the writes for the first n channels of a unit are its brightness writes and, unless KEEP, its capped current writes for those channels |
| LightsProps.UnitsWritesMembers | liblights/lights.c:392-394 | the writes for units first..last are exactly the brightness of every channel of every unit in range and, unless KEEP, the current capped at the cap in force |
| LightsProps.StepLedWrites | liblights/lights.c:315-394 | the LED writes of a call are exactly those of the three cases: dark battery, every unit shows the request; state BATTERY, unit 1 shows it and units 2-3 go dark with their currents when the notification is dark; otherwise unit 1 shows the battery colour under the charging cap and units 2-3 show the request |
| LightsProps.PreludeLedWrites | liblights/lights.c:329-362 | the charging witness writes no LED in the unlit case, units 2-3 dark with currents at the charging cap when confined, and unit 1 in the battery colour at the charging cap for the preview |
| LightsProps.StepLedSources | liblights/lights.c:391-397 | every LED write of a call comes from the prelude or from the request colour on the selected units; the sequencer writes none |
| LightsProps.ProgramWritesNoLed | liblights/lights.c:264-295 | the sequencer machine writes no LED brightness or current |
| LightsProps.DedupDecisions | liblights/lights.c:366-385 | the currents are kept iff target and colour are unchanged; the program is kept iff target and delays are unchanged and the colour differs |
| LightsProps.DedupRetention | liblights/lights.c:366-385 | the delays are retained unchanged unless they differ and the request is TIMED, in which case they become the request's; the target is always recorded; the colour is recorded only when the target is unchanged |
| LightsProps.ProgramStepSemantics | liblights/lights.c:264-295 | the machine ends in RUN iff TIMED; it loads the program iff TIMED with an update, and the load is the program text; it issues reload to engine 1's mode and run to its run channel, each iff TIMED and it loaded or was not running; otherwise every engine gets hold and disabled |
| LightsProps.BlinkSuppression | liblights/lights.c:387-397 | the sequencer is left running iff the request is TIMED with both delays nonzero |
| LightsProps.RepeatedRequestReloads | liblights/lights.c:380-382 | a repeated blinking request with the target settled and the colour remembered keeps the currents but loads the program again |
| LightsProps.ConfinedResetHolds | liblights/lights.c:337-345 | in the state BATTERY with the notification dark, the prelude ends with hold and disabled to every engine and leaves the sequencer OFF; the call's colour and sequencer writes come after it |
| LightsProps.RepeatAfterTargetChange | liblights/lights.c:366-385 | after a target change that finds a different colour recorded, identical blinking requests: the second call records the colour, rewrites the currents and loads no program; the third keeps the currents and reloads the program |
| LightsProps.RepeatAfterTargetChangeSameColour | liblights/lights.c:366-385 | after a target change that finds the request's colour already recorded, the second identical blinking request keeps the currents and reloads the program |
| LightsProps.NoLoadWhenKept | liblights/lights.c:264-295 | a call whose program update is KEEP issues no program load |
| LightsProps.TargetIsUnitRange | liblights/lights.c:326-351 | the zones a branch targets are exactly the units it writes the request colour to, so the trigger pulses exactly those units |
| LightsProps.ColourChangeKeepsProgram | liblights/lights.c:366-385 | a new colour with target and delays unchanged rewrites the currents, keeps the program and records the colour |
| LightsProps.SecondCallSameTarget | liblights/lights.c:373-378 | after a call the charging branch is unchanged and the recorded target is the one that branch selects |
| Lights.LightsDevice.constructor | liblights/lights.c:56-84 | the statics as declared and as `init_globals` sets them: both requests dark and not flashing, state OFF, program OFF, target unknown, no colour, delays -1 |
| Lights.LightsDevice.WriteInt | liblights/lights.c:97-115 | one integer write to the channel is appended to the trace |
| Lights.LightsDevice.WriteString | liblights/lights.c:119-137 | one string write to the channel is appended to the trace |
| Lights.LightsDevice.SetLcdBacklight | liblights/lights.c:171-196 | the clamped brightness of the request is written to both backlight panels, and 0 is returned |
| Lights.LightsDevice.SetLedRgb | liblights/lights.c:200-219 | the unit's three brightness writes, each followed unless KEEP by its current capped at the charging cap in BATTERY and the notification cap otherwise |
| Lights.LightsDevice.SetUnitsRgb | liblights/lights.c:392-394 | the writes of units first..last, in increasing order |
| Lights.LightsDevice.WriteProgram | liblights/lights.c:223-260 | one load of the program text, printed from the five values, is appended |
| Lights.LightsDevice.HoldAllEngines | liblights/lights.c:284-293 | hold to the three run channels, then disabled to the three mode channels |
| Lights.LightsDevice.LoadProgram | liblights/lights.c:272-275 | on an update the mode becomes OFF and the program is loaded; otherwise nothing changes |
| Lights.LightsDevice.StartProgram | liblights/lights.c:276-280 | reload and run of engine 1 unless it is running; the mode ends in RUN |
| Lights.LightsDevice.SetLedsProgram | liblights/lights.c:264-295 | the mode and the writes are those of the run/hold machine `ProgramStep` |
| Lights.LightsDevice.ChargingWitness | liblights/lights.c:328-363 | the unit range and target of the charging branch, and its writes; only the program mode changes, so the temporary BATTERY state is restored |
| Lights.LightsDevice.DetectUpdates | liblights/lights.c:365-385 | the update flags are those of `Decide`, and the dedup keys become those of `Retain` |
| Lights.LightsDevice.PlanRequest | liblights/lights.c:315-389 | every decision of the call (`Decide`), and the state after the prelude and the dedup |
| Lights.LightsDevice.ShowRequest | liblights/lights.c:391-397 | the colour on the selected units, then the run/hold machine |
| Lights.LightsDevice.SetLedsLocked | liblights/lights.c:299-404 | the new statics and the writes are those of `Step`, and 0 is returned |
| Lights.LightsDevice.HandleLedsBatteryLocked | liblights/lights.c:408-423 | NOTIFICATIONS when the notification request is lit, BATTERY otherwise, then the LED path on that request (`Handle`) |
| Lights.LightsDevice.SetNotifications | liblights/lights.c:427-437 | the notification request is stored, the result is `Apply`'s, and 0 is returned |
| Lights.LightsDevice.SetBattery | liblights/lights.c:441-451 | the battery request is stored, the result is `Apply`'s, and 0 is returned |

## Left out

- File I/O: `write_int`, `write_string` and the open, write and close of `write_as3665_program` are modelled as appending one `Event` to `trace`. Open or write failures and `errno` are not modelled, because every caller of the LED path ignores them.
- Lights.LightsDevice.SetLcdBacklight: always returns 0. The source ORs the two write results, and the modelled writes cannot fail.
- The sysfs path strings built with `sprintf` in `init_globals` are replaced by the enumerated `Channel` ids. The mutex initialisation is not modelled either.
- `pthread_mutex` and `pthread_once`: each entry call is treated as atomic, as the lock around it makes it.
- Sequencer.StepCount: models the float product `13.0 * delay / 1000.0` as exact integer arithmetic truncated toward zero. This is exact for every non-negative `int` delay: below 4847 ms the float product is exact, and above that the result saturates at 63 anyway.
- Sequencer.StepCount: gives 0 steps for every negative delay. In C the conversion truncates to 0 for delays down to -76 ms, and below that the conversion of a negative float to `unsigned int` is undefined. On ARM it saturates at 0, which is what the model does.
- `sony_lights.h` is not part of this model. The current caps and the LCD brightness limits become the constructor's `CurrentCaps` and `BacklightLimits`, and the control-file paths become channels.
- The `ALOGV` and `ALOGE` logging is left out.
- The HAL glue is left out: `open_lights` (which picks the entry point by light id), `close_lights` and `HAL_MODULE_INFO_SYM`.
- `liblights/lights.cpp` is left out: it is a vendor pass-through wrapper.
- `libals/als.c` is left out: it is sysfs I/O with a floating-point lux conversion.
- `LIGHT_FLASH_HARDWARE` and any other flash mode take the `default` branch of `set_light_leds_program`, as in the source. No further hardware flashing is modelled.
- The template constant `As3665.SequencerLoadProgram` is written as its fixed runs concatenated with the five conversions, not as one 80-character literal. That it spells the header's literal can be checked by reading the two side by side, and is not proved.
