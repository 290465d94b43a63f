# PinLightShield library model

This is a Dafny model of the PinLightShield Arduino library (`pls.cpp`, `pls.h`). Pinball
machine mods use the library to do three things:

- drive RGB LED strips and 12 V devices from PWM pins;
- read debounced playfield switches;
- decode insert lamps from the lamp matrix.

The model covers the library's own logic:

- packing and unpacking colours;
- brightness scaling;
- the four poll-driven strip effects: rainbow, multi-colour flash, two-colour flash and two-colour fade;
- the delayed 12 V output;
- the debounced switches;
- the blink state machine of the inserts.

Each C++ class becomes a Dafny class with the same fields. Fixed-size member arrays stay arrays.
Calls to `analogWrite` are recorded in a `written` field. The clock (`millis()`), the pin level
(`digitalRead`) and the value drawn by `random()` are method parameters.

Arithmetic follows the AVR target (`Platform.dfy`):

- `int` is 16 bits and `unsigned long` is 32 bits.
- An elapsed time is `now - start` modulo 2^32, so intervals across the counter overflow are measured correctly.
- A comparison of an `int` duration with an elapsed time converts the `int` to `unsigned long` (modulo 2^32). A negative duration `-k` therefore counts as `2^32 - k` ms: the effect stays on until almost 49.7 days have elapsed.
- Division truncates toward zero.
- Colours are 32-bit bit vectors and channels are 8-bit bit vectors.

Modules:

- `Platform`: the integer widths, `Elapsed`, C conversions and division, `constrain`, `random`.
- `Colors`: `RGB2Long`, the `Long2RGB` overloads, the getters, `CopyColor`.
- `StripEffects`: the strip's arithmetic as functions. These specify the class methods.
- `Strip`: class `RGBStrip`.
- `Output12V`: class `Std12VOutput`.
- `Switches`: classes `Switch` and `OptoSwitch`.
- `Inserts`: class `Insert`.

Where the code and its documentation disagree, the model follows the code:

- The condition `_delaytime = 0` in `OutputWithDelay` is an assignment whose value is 0. The test is therefore always false.
- `SetBrightness` resets an out-of-range value to 100; it does not clamp it.
- `ReadSwitchDelayed` re-arms after each report. A ball that stays put is reported again after every further wait, not once per closure.
- In random order `MultiColorFlash` draws `random(0, n - 1)`. That range excludes `n - 1`, so with two or more colours the last colour is never chosen. `StripEffects.NextColorIndex` states this.

## Model

| member | source | states |
|---|---|---|
| Platform.Elapsed | pls.cpp:159 | the unsigned difference `now - start` is the residue modulo 2^32 and equals the plain difference when no overflow happened |
| Platform.ToULong | pls.cpp:242-243 | an `int` compared with an elapsed time is converted modulo 2^32; negative values become larger than any 16-bit value |
| Platform.ToInt16 | pls.cpp:165 | storing an `unsigned long` into an `int` keeps it modulo 2^16, and unchanged when it fits |
| Platform.CDiv | pls.cpp:102 | C division truncates toward zero: the quotient brackets the dividend from below for nonnegative and from above for negative operands |
| Platform.Constrain | pls.cpp:87 | the result lies in `[lo, hi]`, is `x` inside it and the nearer bound outside |
| Platform.Random | pls.cpp:247 | `random(lo, hi)` lies in `[lo, hi)` and is `lo` for an empty range |
| Platform.RandomReachesEveryValue | pls.cpp:247 | every value of a non-empty range is produced by some generator draw |
| Colors.RGB2Long | pls.cpp:29-32 | the packed colour is `red * 2^16 + green * 2^8 + blue`, below 2^24 |
| Colors.Long2RGB | pls.cpp:35-40 | repacking the unpacked channels gives the colour without its top byte |
| Colors.Long2RGBInt | pls.cpp:42-47 | each unpacked `int` channel lies in 0..255 |
| Colors.RoundTrip | pls.cpp:29-69 | packing then unpacking, through every unpacking helper and getter, gives the channels back |
| Colors.GetRed | pls.cpp:56-59 | masking then shifting gives the red byte `Long2RGB` extracts by shifting then truncating |
| Colors.GetGreen | pls.cpp:61-64 | masking then shifting gives the green byte `Long2RGB` extracts |
| Colors.GetBlue | pls.cpp:66-69 | masking gives the blue byte `Long2RGB` extracts |
| Colors.GettersAgree | pls.cpp:56-69 | `GetRed`, `GetGreen` and `GetBlue` agree with `Long2RGB` on every 32-bit value |
| Colors.Long2RGBArray | pls.cpp:49-54 | the first three array entries receive the unpacked channels; the rest of the array is unchanged |
| Colors.CopyColor | pls.cpp:20-26 | the destination's first three entries become the source's; the rest is unchanged |
| StripEffects.Scale | pls.cpp:109 | a channel scaled by a percentage stays within 0..the channel; 100 % keeps it and 0 % clears it |
| StripEffects.ScaleTruncates | pls.cpp:109 | the scaled value is `v * brightness / 100` truncated toward zero |
| StripEffects.Dimmed | pls.cpp:107-112 | three PWM channels dimmed by a percentage are PWM channels |
| StripEffects.NextColorIndex | pls.cpp:246-252 | the next playlist index names a configured colour; in sequence it is the successor modulo the colour count; in random order it is `random(0, n - 1)`, which with two or more colours never picks the last colour |
| StripEffects.SequentialAfter | pls.cpp:248-252 | after any number of sequential switches the index still names a configured colour |
| StripEffects.SequentialCycles | pls.cpp:219-252 | a playlist started at its first colour shows colour `k mod n` after `k` switches |
| StripEffects.RainbowRamp | pls.cpp:165-195 | the six branches of the rainbow change at most one channel |
| StripEffects.PhaseChannel | pls.cpp:165-195 | each rainbow phase names one of the three channels |
| StripEffects.RainbowPhases | pls.cpp:165-195 | in phase `k` of the six, exactly the channel red, blue, green, red, blue, green is set, rising 0..255 in even and falling 255..0 in odd phases, one unit per `speed` ms; the other channels keep their values |
| StripEffects.RainbowKeepsChannels | pls.cpp:165-197 | channels in 0..255 stay in 0..255 through the rainbow cycle |
| StripEffects.FadeDirection | pls.cpp:330-334 | a channel's direction is +1 exactly when it rises from `from` to `to`, else -1 |
| StripEffects.LeadChannel | pls.cpp:338-356 | the lead channel holds the largest colour difference, and is the first index holding it |
| StripEffects.ChannelSeq | pls.cpp:317-318 | the unpacked `int[3]` colour holds three PWM values |
| StripEffects.ProportionalSteps | pls.cpp:338-356 | the lead channel steps by `100 * fadestep` and every channel by between 0 and that |
| StripEffects.StepsAreShares | pls.cpp:338-356 | each channel's step is `100 * fadestep * diff / leaddiff`, rounded down, whichever branch sets it |
| StripEffects.DetectColorLimit | pls.cpp:362-379 | a limit is detected exactly when a rising channel exceeds both endpoints or another one falls below both |
| StripEffects.FadeTick | pls.cpp:416-424 | after a step either some channel overshot and every channel sits on the endpoint it headed for with its direction reversed, or every channel moved by its step in its direction |
| StripEffects.FadeTickKeepsRange | pls.cpp:416-424 | every accumulator stays between its two colour values (times 100) through every fade step |
| StripEffects.SetupEstablishesFadeInv | pls.cpp:328-359 | after set-up every accumulator is on its `from` value, within range, and heading away from it |
| Strip.RGBStrip.constructor | pls.cpp:77-96 | brightness, whose default is 100 (pls.h:35), is clamped to 0..100, the rainbow starts black at speed 7, and the strip is switched off |
| Strip.RGBStrip.LightStrip | pls.cpp:100-105 | each channel of the packed colour is written dimmed by the brightness, as a PWM value |
| Strip.RGBStrip.LightStripRGB | pls.cpp:107-112 | the three values are written dimmed by the brightness |
| Strip.RGBStrip.LightStripArray | pls.cpp:114-119 | the array's three values are written dimmed by the brightness |
| Strip.RGBStrip.SwitchOff | pls.cpp:121-124 | black is written |
| Strip.RGBStrip.SetBrightness | pls.cpp:147-153 | a value in 0..100 is taken, anything else becomes 100 |
| Strip.RGBStrip.RainbowColorChange | pls.cpp:155-198 | a finished cycle only restarts the cycle; otherwise the channels follow the rainbow ramp at the elapsed time; the channels are written dimmed; the invariant is kept |
| Strip.RGBStrip.SetRainbowSpeed | pls.cpp:200-205 | the speed is taken, or 1 when not positive |
| Strip.RGBStrip.SetupMultiColorFlash | pls.cpp:207-222 | at most five colours are kept, both tables are copied, and the playlist restarts at the first colour |
| Strip.RGBStrip.MultiColorFlash | pls.cpp:225-257 | a flash that outlived its duration stops and changes nothing; otherwise it starts or continues, advances the playlist exactly when the colour is due, and writes the current colour |
| Strip.RGBStrip.SetupTwoColorFlash | pls.cpp:259-269 | both colours and durations are copied and the flash starts on the first colour |
| Strip.RGBStrip.TwoColorFlash | pls.cpp:271-309 | a flash that outlived its duration stops and changes nothing; otherwise the colour toggles exactly when it has been shown for its own duration, and the shown colour is written |
| Strip.RGBStrip.SetupTwoColorFade | pls.cpp:312-360 | both colours are unpacked, the step is clamped to 1..5, directions, proportional steps and accumulators are set, and the fade invariant holds |
| Strip.RGBStrip.SwitchDir | pls.cpp:381-392 | every accumulator goes to the endpoint it headed for and every direction is reversed |
| Strip.RGBStrip.TwoColorFade | pls.cpp:394-428 | a fade that outlived its duration stops and changes nothing; otherwise it takes one `FadeTick` exactly when the step is due, and writes PWM values dimmed by the brightness |
| Strip.RGBStrip.FadeOneStep | pls.cpp:413-425 | one step of the fade is `FadeTick` of the old accumulators and directions, keeping the invariant |
| Strip.RGBStrip.ShowFade | pls.cpp:427 | the accumulators divided by 100 are written, and are PWM values |
| Strip.PrepareFade | pls.cpp:317-359 | both colours are unpacked, and directions, proportional steps for the clamped step and starting accumulators are set |
| Strip.SetDirections | pls.cpp:328-336 | each direction is `FadeDirection` of its channel and each difference is the absolute channel difference |
| Strip.SetSteps | pls.cpp:338-356 | the step array becomes `ProportionalSteps` of the differences |
| Strip.StartAccumulators | pls.cpp:358-359 | every accumulator becomes its `from` channel times 100 |
| Strip.AdvanceAccumulators | pls.cpp:416-417 | every accumulator moves by its step in its direction, as in `Advanced` |
| Output12V.DelayStepAsWritten | pls.cpp:459-479 | `OutputWithDelay` as written, with the assignment in the condition |
| Output12V.AsWrittenNeverActive | pls.cpp:462 | as written, once the clock has left 0 every call reports the output off |
| Output12V.AsWrittenCounterexample | pls.cpp:462 | a 1000 ms output started at 500 ms is off at once as written and on as intended |
| Output12V.DelayStep | pls.cpp:459-479 | `OutputWithDelay` as intended: an idle output latches the delay and the time |
| Output12V.IntendedHoldsForDelay | pls.cpp:459-479 | as intended and for a positive delay, an output started at `start` stays on exactly while at most `delaytime` ms have passed, and then goes idle |
| Output12V.Std12VOutput.constructor | pls.cpp:439-447 | no delay is latched, the start time is 0 and 0 is written |
| Output12V.Std12VOutput.Output | pls.cpp:450-454 | the value written is the value clamped to 0..255 |
| Output12V.Std12VOutput.OutputWithDelay | pls.cpp:459-479 | as written: the new delay, start time and active flag are `DelayStepAsWritten` of the old ones, delay and start time stay 0, the output is on exactly at time 0, and the clamped value is written while on and 0 otherwise |
| Switches.DebounceStep | pls.cpp:528-547 | as intended, with a 32-bit latch: a read reports a closure exactly when the switch is active and more than `wait` ms have passed since it was latched; a report or an open switch clears the latch; otherwise the latch holds the closing time |
| Switches.DebounceStepAsWritten | pls.cpp:528-547 | as written, with the 16-bit `_closetime` of pls.h:117: a read reports a closure exactly when the switch is active and more than `wait` ms have passed since the truncated, sign-extended latch; a report or an open switch clears the latch; otherwise the latch holds the truncated closing time |
| Switches.AsWrittenAgreesEarly | pls.h:117 | while latch and clock fit in 16 bits the code as written and the 32-bit latch give the same latch and result |
| Switches.TruncatedLatchCounterexample | pls.h:117 | at 40 s a freshly closed switch is reported at once with the 16-bit latch and waits with a 32-bit one |
| Switches.TruncatedLatchReportsAtOnce | pls.h:117 | with the 16-bit latch and a nonnegative wait, from 32.768 s until 32.768 s before the counter wraps, the first read of any closure already reports it |
| Switches.ShortClosureNeverReports | pls.cpp:528-547 | while all reads of a held switch fall within `wait` ms of the closing, none reports it and the latch is kept |
| Switches.ReportRearms | pls.cpp:528-547 | after a report the next active read latches a new closure without reporting |
| Switches.Switch.constructor | pls.cpp:507-515 | the wait, whose default is 0 (pls.h:111), is stored and no closure is latched |
| Switches.Switch.ReadSwitch | pls.cpp:519-522 | a closed switch reads true, exactly when the pin is HIGH |
| Switches.Switch.ReadSwitchDelayed | pls.cpp:528-547 | the latch, a 16-bit `int` as in pls.h:117, and the result are `DebounceStepAsWritten` on the HIGH level |
| Switches.OptoSwitch.constructor | pls.cpp:557-565 | the wait, whose default is 0 (pls.h:129), is stored and no closure is latched |
| Switches.OptoSwitch.ReadSwitch | pls.cpp:568-571 | a ball is present exactly when the pin is LOW |
| Switches.OptoSwitch.ReadSwitchDelayed | pls.cpp:576-595 | the latch, a 16-bit `int` as in pls.h:135, and the result are `DebounceStepAsWritten` on the LOW level |
| Inserts.BlinkNext | pls.cpp:660-707 | the next insert state is one of the four states |
| Inserts.BlinkNextOn | pls.cpp:660-707 | ON exactly when lit in ON, or lit in BLINKING once the on-delay has passed since the last off |
| Inserts.BlinkNextOff | pls.cpp:660-707 | OFF exactly when unlit in OFF or ON, or unlit in BLINKING once the off-delay has passed since the last on |
| Inserts.BlinkNextBlinking | pls.cpp:660-707 | BLINKING exactly on the next lit reading after UNDEFINED, or in BLINKING while the delay that would end it has not passed |
| Inserts.BlinkNextUndefined | pls.cpp:660-707 | UNDEFINED exactly on the first rising edge and until the next lit reading |
| Inserts.RankRisesOnlyWhenLit | pls.cpp:660-707 | each lit poll moves the state at most one step from OFF towards ON and an unlit one never does, so ON needs three lit polls from OFF |
| Inserts.Insert.constructor | pls.cpp:618-628 | the delays are stored (the on- and off-delays default to 0, pls.h:142), both times are 0 and the state is OFF |
| Inserts.Insert.InsertOn | pls.cpp:631-651 | a reading is lit when HIGH or within the filter delay of the last HIGH; a HIGH records its time, and a reading filtered to off records its time |
| Inserts.Insert.GetBlinkInsertState | pls.cpp:660-707 | the new state, which is returned, is `BlinkNext` of the old state on the filtered reading and the times since the last on and off; the last-on time becomes `now` on a HIGH reading and the last-off time becomes `now` on a reading filtered to off, both otherwise unchanged |

## Left out

- Pin numbers and `pinMode` calls in the constructors are not modelled. The model has no pins, so the constructors take only their non-pin parameters.
- `RGBStrip::MakeFlashes` and `Std12VOutput::MakeFlashes` are not modelled. They block in `delay()`, and the model has no clock to block on.
- `StdInput` is not modelled. It only returns `digitalRead` of its pin, and the model has no pins.
- `analogWrite` becomes a record of the last values written. `digitalRead`, `millis()` and the generator behind `random()` become method parameters.
- Strip.RGBStrip.LightStripRGB: the product `value * brightness` is computed without 16-bit overflow. Callers pass PWM values, whose products do not overflow.
- Strip.RGBStrip.LightStripArray: the product is likewise computed without 16-bit overflow.
- Strip.RGBStrip.RainbowColorChange: requires `speed * 6 * 256` to fit in 16-bit `int`, because the source computes the period in `int` and signed overflow is undefined in C.
- Strip.RGBStrip.SetupTwoColorFade: requires that at least one channel of the two colours differs, because the source divides by the largest difference; and that the step products `100 * fadestep * diff` fit in 16-bit `int`, because signed overflow is undefined in C.
- Strip.RGBStrip.SetupMultiColorFlash: receives the caller's two tables as values. `memcpy` copies five entries of each, so the caller's arrays are never aliased with the strip's.
- Strip.RGBStrip.SetupTwoColorFlash: requires that the second colour is not the strip's own first buffer. Callers cannot pass it, because it is private.
- Strip.RGBStrip.constructor: members the source leaves uninitialised start at zero, as global objects do on Arduino.

## Findings

The classes model both defects as written. Beside each class, the corrected function carries the intended property.

| source | as written | input that shows it | evidently intended | confidence | as-written member | corrected member |
|---|---|---|---|---|---|---|
| pls.h:117 | `_closetime` is a 16-bit `int`, so the `unsigned long` closing time is truncated when stored and sign-extended when subtracted | a switch closing at 40000 ms with a 100 ms wait is reported on its first read | the latch holds the 32-bit time and the closure is reported only after the wait | likely; not executed | Switches.TruncatedLatchCounterexample | Switches.DebounceStep |
| pls.cpp:462 | `if (_delaytime = 0)` assigns 0 and tests it, so the delay is never latched and the time is measured from 0 | a 1000 ms output requested at 500 ms is switched off on the first call | test `_delaytime == 0`, latching the delay and the start time | likely; not executed | Output12V.AsWrittenCounterexample | Output12V.IntendedHoldsForDelay |
