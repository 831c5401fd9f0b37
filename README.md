# Arduino device drivers for behavioural experiments — Dafny model

This project models the eight header-only hardware drivers of an Arduino/Teensy
microcontroller firmware. The firmware runs behavioural experiments with animals.

Each driver is a subclass of a shared `Module` base class. A scheduler outside the core
calls the driver's `RunActiveCommand` once per loop iteration while a command is active. The
driver:

- advances a stage cursor;
- writes pins through lock-respecting primitives; there are two global locks, one for
  actuators and one for TTL outputs;
- waits without blocking until a stage's duration has elapsed;
- reports events to the PC as status codes with optional payloads.

The drivers are:

- **actuators**: the fluid valve (optionally with a buzzer), the TTL line, the screen power
  relays, the piezo buzzer and the brake;
- **sensors**: the lick sensor, the torque sensor and the quadrature encoder.

The sensors filter their readings before they report them.

How each part of the source is modelled:

- **The base class.** `module.h` is not part of this model. Its state is the record
  `Runtime.Context`, which holds:
  - the active command, its stage and the time the stage was entered;
  - the command status (running, completed, aborted) and the two locks;
  - the level of every pin and the order in which pins were written;
  - the log of messages sent.
- **The clock.** The clock is a `now` parameter. A run of a multi-stage command is a
  sequence of `Tick`s, each giving the time and the state of both locks.
- **The drivers.** Each driver is a class with:
  - its template arguments as a `const cfg`;
  - its PC-addressable parameters as `params`, which `SetCustomParameters` overwrites
    wholesale;
  - the mutable `ctx: Context`;
  - the driver's own statics as fields.
- **Methods and specification functions.** Each command is a method. Its `ensures` ties the
  new context to a specification function of the old one: `PulseTick`, `ValvePulseTick`,
  `CalibrateEffect`, `LickStep`, `TorqueStep`, `ReadStep`, and so on. Lemmas then prove what
  the firmware promises about those functions, over single calls and over whole runs:
  - every message and pin write;
  - the final pin levels;
  - what happens under the locks;
  - liveness when the lock stays released.
- **Shared modules.**
  - Module `Sequencer` holds the two command shapes the actuator drivers share: one
    lock-respecting write, and the three-stage pulse.
  - Module `ChangeFilter` holds the delta gate and the zero-collapse bookkeeping that the
    lick and torque sensors share.

Where the repository's design description and the code differ, the model follows the code:

- **`ResetEncoder` is partial.** It clears the hardware pulse counter but not the overflow
  accumulator. Only `SetupModule` clears both (`src/encoder_module.h:140-143, 273-277`).
  `Encoder.OverflowSurvivesReset` exhibits this.
- **The tone wait can wrap.** The valve's tone stage waits `tone_duration - pulse_duration`
  in uint32 arithmetic. When the tone is the shorter of the two, this wraps to more than an
  hour, so nothing guarantees that the tone outlasts the pulse (`Valve.ToneWaitWraps`).
- **Calibration with a zero count.** With a calibration count of zero, `Calibrate` reports
  Calibrated without consulting the lock. So not every command under an engaged lock reports
  OutputLocked (`Valve.CalibrateOutcome`).

Other behaviours of the code that the model keeps as written:

- **The brake's levels.** `EnableBreak` drives the level that `SetupModule` uses for a
  disengaged brake, and `DisableBreak` drives the one it uses for an engaged brake
  (`Brake.EnableUsesSetupsReleaseLevel`).
- **A refused closing leaves the tone sounding.** In a valve pulse with a buzzer, a closing
  that the lock refuses aborts the command and leaves the buzzer sounding
  (`Valve.TonePulseOutcome`).
- **Setup zeros are not recorded.** The lick and torque `SetupModule` report a zero without
  recording it in the filter memory, so the first check can report a second zero
  (`Lick.SetupZeroRepeats`).
- **A disabled torque direction repeats zeros.** Zeros can also repeat when one torque
  direction is disabled (`Torque.DisabledDirectionRepeatsZero`).

The Tone command's guard is inverted. The model does not keep it as written: it is
listed under Findings, and the valve class runs the corrected guard.

## Model

| member | source | states |
|---|---|---|
| Sequencer.SetOutputOutcome | src/valve_module.h:262-295 | A single-stage write with the lock released sets the pin, appends the write and the confirmation, and completes. With the lock engaged it leaves pins and writes alone, sends exactly OutputLocked and aborts. |
| Sequencer.SetOutputIdempotent | src/speaker_module.h:187-220 | Repeating a toggle whose pin already carries the output leaves the pins unchanged and completes again with the same confirmation. |
| Sequencer.PulseLockedAtStart | src/speaker_module.h:138-155 | In stage 1 with the lock engaged, a pulse tick only reports OutputLocked and aborts. |
| Sequencer.PulseTickStarts | src/speaker_module.h:138-146 | In stage 1 with the lock released, a tick writes every pin active and sends the on events first, and does not abort. |
| Sequencer.PulseWaitIsSilent | src/speaker_module.h:158-164 | Before the pulse duration has elapsed, re-entering stage 2 changes nothing. |
| Sequencer.PulseTickProgress | src/speaker_module.h:135-184 | One tick keeps a pulse within its reachable states: nothing done, active, completed with exactly the on and off events and writes, or aborted right after OutputLocked. |
| Sequencer.PulseRunProgress | src/speaker_module.h:135-184 | Any run of ticks keeps a pulse within those reachable states. |
| Sequencer.PulseRunOutcome | src/speaker_module.h:135-184 | Whatever the clock and the locks do, a pulse completes with exactly the on then off events, the active then inactive writes and every pin inactive. Otherwise it aborts after one OutputLocked report (before or after the on events), without writing the inactive level, or is still running with nothing or only the on events sent. No other pin changes. |
| Sequencer.HoldThenRelease | src/speaker_module.h:158-183 | From the wait stage, with the lock released and a last tick at least the duration after the stage began, the pulse completes. |
| Sequencer.PulseRunCompletes | src/speaker_module.h:135-184 | With the lock released on every tick and a last tick at least pulse_duration after the first, the pulse completes with the on then off events and every pin inactive. |
| Speaker.PulseEmitsOnOff | src/speaker_module.h:135-184 | A buzzer pulse that completes has sent exactly On then Off, written HIGH then LOW, and left the pin LOW. One that aborts ends with OutputLocked. It completes when the lock stays released long enough. |
| Speaker.SpeakerModule.constructor | src/speaker_module.h:128-132 | A new module holds the defaults (pulse_duration 100000). |
| Speaker.SpeakerModule.SetCustomParameters | src/speaker_module.h:75-81 | The received parameter record replaces the current one. |
| Speaker.SpeakerModule.SetupModule | src/speaker_module.h:101-123 | Drives the pin LOW and reports Off, or HIGH and On when the buzzer starts on, and restores pulse_duration 100000. |
| Speaker.SpeakerModule.RunActiveCommand | src/speaker_module.h:84-98 | Commands 1, 2 and 3 run Pulse, Open and Close. Any other command is not handled and changes nothing. |
| Speaker.SpeakerModule.Pulse | src/speaker_module.h:135-184 | The new context is one tick of the three-stage HIGH/LOW pulse on the actor lock, reporting On and Off. |
| Speaker.SpeakerModule.Open | src/speaker_module.h:187-202 | A HIGH write on the actor lock reporting On, or OutputLocked and abort. |
| Speaker.SpeakerModule.Close | src/speaker_module.h:205-220 | A LOW write on the actor lock reporting Off, or OutputLocked and abort. |
| Ttl.WrongDirectionAborts | src/ttl_module.h:141-146 | On an input pin, SendPulse, ToggleOn and ToggleOff report InvalidPinMode and abort without touching any pin. |
| Ttl.PulseIsSilent | src/ttl_module.h:137-187 | A completed TTL pulse has written HIGH then LOW, left the pin LOW and sent no message. An aborted one sent only OutputLocked. It completes when the TTL lock stays released long enough. |
| Ttl.InputReportsAlternate | src/ttl_module.h:237-267 | Over any readings, every report is InputOn or InputOff and consecutive reports alternate. The first report differs from the stored level and the last names the last reading. The stored level ends as the last reading. |
| Ttl.SteadyInputIsSilent | src/ttl_module.h:254-263 | Readings equal to the stored level produce no report and keep the level. |
| Ttl.TtlModule.constructor | src/ttl_module.h:129-133 | A new module holds the defaults (10000, 0) and a stored input level of LOW. |
| Ttl.TtlModule.SetCustomParameters | src/ttl_module.h:77-83 | The received parameter record replaces the current one. |
| Ttl.TtlModule.SetupModule | src/ttl_module.h:105-123 | An output pin is driven to its start level and an input pin left alone. No message is sent and the defaults are restored. |
| Ttl.TtlModule.RunActiveCommand | src/ttl_module.h:86-102 | Commands 1 to 4 run SendPulse, ToggleOn, ToggleOff and CheckState. Any other command is not handled and changes nothing. |
| Ttl.TtlModule.Pulse | src/ttl_module.h:137-187 | The new context is InvalidPinMode on an input pin, otherwise one tick of the silent HIGH/LOW pulse on the TTL lock. |
| Ttl.TtlModule.SetLevel | src/ttl_module.h:190-233 | InvalidPinMode on an input pin, otherwise a write of the level on the TTL lock with no confirmation. |
| Ttl.TtlModule.CheckInput | src/ttl_module.h:237-267 | InvalidPinMode on an output pin. Otherwise the stored level and the messages follow InputReport: a change is reported as the new level and stored. |
| Screen.GatePolarity | src/screen_module.h:148-152 | The on and off levels are opposite, and a normally closed gate is switched on by HIGH. |
| Screen.ToggleIsPulse | src/screen_module.h:156-211 | A completed toggle has sent On then Off, written the left, center and right pins on in that order and then off in the same order, and left all three off. An aborted one ends with OutputLocked. It completes when the lock stays released long enough. |
| Screen.ScreenModule.constructor | src/screen_module.h:140-143 | A new module holds the default pulse_duration 1000000. |
| Screen.ScreenModule.SetCustomParameters | src/screen_module.h:95-101 | The received parameter record replaces the current one. |
| Screen.ScreenModule.SetupModule | src/screen_module.h:117-134 | All three gates are written off in order, Off is reported and the defaults are restored. |
| Screen.ScreenModule.RunActiveCommand | src/screen_module.h:104-114 | Command 1 runs Toggle. Any other command is not handled and changes nothing. |
| Screen.ScreenModule.TogglePins | src/screen_module.h:156-211 | The new context is one tick of the three-pin pulse. A refused write skips the remaining writes of its stage. |
| Brake.SetupPolarity | src/break_module.h:109-110 | The engaged and disengaged start levels are opposite. A normally engaged brake starts engaged on LOW, a normally disengaged one on HIGH. |
| Brake.DutyMatchesSetup | src/break_module.h:164-184 | The PWM duty spends exactly breaking_strength/255 of the period at the engaged level: 255 is always fully engaged and 0 fully released. |
| Brake.EnableUsesSetupsReleaseLevel | src/break_module.h:129-161 | As written, EnableBreak drives the level that SetupModule uses for a disengaged brake, and DisableBreak the engaged one. |
| Brake.BrakeCommandOutcome | src/break_module.h:136-184 | With the lock released, the brake commands set the pin, send nothing and complete. With it engaged, they send exactly OutputLocked and abort without touching any pin. |
| Brake.BrakeModule.constructor | src/break_module.h:122-125 | A new module holds the default breaking_strength 128. |
| Brake.BrakeModule.SetCustomParameters | src/break_module.h:76-82 | The received parameter record replaces the current one. |
| Brake.BrakeModule.SetupModule | src/break_module.h:102-116 | The pin is written to the start level for the brake type, and the defaults are restored. |
| Brake.BrakeModule.RunActiveCommand | src/break_module.h:85-99 | Commands 1 to 3 run EnableBreak, DisableBreak and SetBreakingPower. Any other command is not handled and changes nothing. |
| Brake.BrakeModule.EnableBreak | src/break_module.h:136-147 | A lock-respecting write of kEngage with no confirmation. |
| Brake.BrakeModule.DisableBreak | src/break_module.h:150-161 | A lock-respecting write of kDisengage with no confirmation. |
| Brake.BrakeModule.SetPower | src/break_module.h:164-184 | A lock-respecting PWM write of breaking_strength, inverted for a normally engaged brake. |
| Valve.ValvePolarity | src/valve_module.h:174-178 | The open and close levels are opposite, and a normally closed valve is opened by HIGH. |
| Valve.NoToneTickIsPulse | src/valve_module.h:181-259 | Without a buzzer, one Pulse tick is the shared three-stage pulse reporting Open and Closed. |
| Valve.NoToneRunIsPulse | src/valve_module.h:181-259 | Without a buzzer, every run of Pulse ticks is that shared pulse run. |
| Valve.PulseWithoutTone | src/valve_module.h:181-239 | Without a buzzer, a completed pulse has sent Open then Closed, written the valve open then closed and left it closed. An aborted one ends with OutputLocked. No other pin changes. It completes when the lock stays released for pulse_duration. |
| Valve.TonePulseTickProgress | src/valve_module.h:181-259 | With a buzzer, one tick keeps the five-stage pulse within its reachable states, which are tracked message by message and write by write. |
| Valve.TonePulseRunProgress | src/valve_module.h:181-259 | Any run of ticks keeps the five-stage pulse within those states. |
| Valve.TonePulseOutcome | src/valve_module.h:181-259 | With a buzzer, a completed pulse has sent exactly Open, ToneOn, Closed, ToneOff, made the four writes in that order, and left the buzzer LOW and the valve closed. An aborted one either sent only OutputLocked and touched no pin, or sent Open, ToneOn, OutputLocked and left the valve open and the buzzer sounding. |
| Valve.ToneWaitWraps | src/valve_module.h:242-250 | The remaining tone wait is tone_duration - pulse_duration when the tone is longer. Otherwise it is that difference modulo 2^32, which is at least 2^32 - pulse_duration. |
| Valve.ToneWaitIsSilent | src/valve_module.h:242-250 | Before the remaining tone time has elapsed, re-entering stage 4 changes nothing. |
| Valve.PulseWaitIsSilent | src/valve_module.h:213-219 | With or without a buzzer, re-entering stage 2 before pulse_duration has elapsed changes nothing. |
| Valve.TonePulseCompletes | src/valve_module.h:181-259 | With a buzzer and the lock released on every tick, a pulse completes having sent exactly Open, ToneOn, Closed, ToneOff. It needs a tick j, the first at least pulse_duration after the first tick, and a last tick at least the remaining tone time after tick j. |
| Valve.CalibrationWrites | src/valve_module.h:307-333 | n calibration cycles are 2n writes alternating open and close. |
| Valve.CalibrateOutcome | src/valve_module.h:301-338 | With the lock released, or a zero count, Calibrate makes exactly calibration_count open/close pairs, leaves the valve closed if it pulsed, reports Calibrated and completes. With the lock engaged and a positive count, it reports OutputLocked and aborts without writing. |
| Valve.ToneGuardInverted | src/valve_module.h:345-350 | As written, Tone refuses every valve with a buzzer (TonePinNotSet, abort), and on a valve without one it drives pin 255 HIGH and reports ToneOn. The corrected guard does the opposite. |
| Valve.ExampleValveToneRefused | src/main.cpp:36 | For a valve on pin 29 with a buzzer on pin 9, the as-written Tone aborts and the corrected one starts the tone. |
| Valve.ToneOutcome | src/valve_module.h:342-395 | The corrected Tone without a buzzer reports TonePinNotSet, writes nothing and aborts. With a buzzer, a completed tone has sent ToneOn then ToneOff and left the buzzer LOW. An aborted one ends with OutputLocked. No other pin, the valve included, changes. It completes when the lock stays released for tone_duration. |
| Valve.ValveModule.constructor | src/valve_module.h:163-170 | A new module holds the defaults (35590, 200000, 500, 300000). |
| Valve.ValveModule.SetCustomParameters | src/valve_module.h:99-105 | The received parameter record replaces the current one. |
| Valve.ValveModule.SetupModule | src/valve_module.h:129-157 | Writes the buzzer pin LOW (pin 255 when none is wired) and reports ToneOff. Then drives the valve to its start state, reporting Closed or Open, and restores the defaults. |
| Valve.ValveModule.RunActiveCommand | src/valve_module.h:108-126 | Commands 1 to 5 run Pulse, Open, Close, Calibrate and Tone (corrected). Any other command is not handled and changes nothing. |
| Valve.ValveModule.Pulse | src/valve_module.h:181-259 | The new context is one tick of the five-stage pulse. |
| Valve.ValveModule.OpenValve | src/valve_module.h:262-277 | An open write on the actor lock reporting Open, or OutputLocked and abort. |
| Valve.ValveModule.CloseValve | src/valve_module.h:280-295 | A close write on the actor lock reporting Closed, or OutputLocked and abort. |
| Valve.ValveModule.CalibrateValve | src/valve_module.h:301-338 | The loop's final context is CalibrateEffect: calibration_count open/close pairs then Calibrated, or OutputLocked and abort. |
| Valve.ValveModule.SoundTone | src/valve_module.h:342-395 | The new context is one tick of the corrected Tone. |
| ChangeFilter.ConcatNoRepeatedZero | src/lick_module.h:178-189 | Appending a later report sequence to one report keeps zero reports apart, and tracks whether the last report was a zero. |
| Lick.RepeatedReadingIsDropped | src/lick_module.h:146-192 | Once a reading has been checked, the same reading again is dropped by the delta gate: nothing is reported and the memory is kept. |
| Lick.LickRunNoRepeatedZero | src/lick_module.h:131-193 | Over any readings, the reports never contain two zeros in a row, and none starts with a zero right after one. |
| Lick.CheckStateNeverRepeatsZero | src/lick_module.h:178-189 | Whatever the starting memory, CheckState never sends two zeros in a row. |
| Lick.LickPayloads | src/lick_module.h:166-189 | Every report is Changed with a payload that is either 0 or one of the readings at or above signal_threshold. |
| Lick.ExampleTrace | src/lick_module.h:131-193 | With thresholds 200/100, the readings 0, 0, 250, 250, 0 produce exactly Changed(250) then Changed(0). |
| Lick.SetupZeroRepeats | src/lick_module.h:98-117 | Setup's zero is not recorded, so a first reading of 190 with the defaults sends a second zero. |
| Lick.LickModule.constructor | src/lick_module.h:136-141 | A new module holds the defaults and the filter memory (0, no zero). |
| Lick.LickModule.SetCustomParameters | src/lick_module.h:76-82 | The received parameter record replaces the current one. |
| Lick.LickModule.SetupModule | src/lick_module.h:98-117 | Restores the defaults (200, 180, 0) and reports Changed(0), leaving the filter memory alone. |
| Lick.LickModule.RunActiveCommand | src/lick_module.h:85-95 | Command 1 runs CheckState. Any other command is not handled and changes nothing. |
| Lick.LickModule.Check | src/lick_module.h:131-193 | The new filter memory and the messages are LickStep's, and the command completes. |
| Torque.DecodeRoundTrip | src/torque_module.h:179-201 | The reading is recovered from the decoded direction and magnitude. The magnitude is the distance from the baseline, and the direction is CW below the baseline (flipped when inverted). |
| Torque.DecodeInjective | src/torque_module.h:179-201 | Different readings decode differently. |
| Torque.RepeatedReadingIsDropped | src/torque_module.h:143-245 | The delta gate acts on the raw reading. So once a reading has been checked, the same reading again is dropped in either direction and at any magnitude: nothing is reported and the memory is kept. |
| Torque.TorquePayloads | src/torque_module.h:203-242 | Every report is CCW or CW with a payload of 0 or at least signal_threshold. |
| Torque.TorqueRunNoRepeatedZero | src/torque_module.h:203-242 | With both directions enabled, the reports never contain two zeros in a row over any readings. |
| Torque.CheckStateNeverRepeatsZero | src/torque_module.h:203-242 | With both directions enabled, CheckState never sends two zeros in a row. |
| Torque.DisabledDirectionRepeatsZero | src/torque_module.h:222-242 | With CW reports disabled, the readings 2128, 1900, 2048 around baseline 2048 produce CCW(0) twice in a row. |
| Torque.TorqueModule.constructor | src/torque_module.h:149-154 | A new module holds the defaults and the filter memory (baseline, no zero). |
| Torque.TorqueModule.SetCustomParameters | src/torque_module.h:84-90 | The received parameter record replaces the current one. |
| Torque.TorqueModule.SetupModule | src/torque_module.h:106-127 | Restores the defaults (true, true, 100, 70, 5) and reports CCW(0), leaving the filter memory alone. |
| Torque.TorqueModule.RunActiveCommand | src/torque_module.h:93-103 | Command 1 runs CheckState. Any other command is not handled and changes nothing. |
| Torque.TorqueModule.Check | src/torque_module.h:143-245 | The new filter memory and the messages are TorqueStep's, and the command completes. |
| Encoder.ReadStepConserves | src/encoder_module.h:213-266 | With both directions reported, one read loses no motion. The signed value of the message it sends plus the overflow it keeps equals the old overflow plus the new motion. |
| Encoder.AccumulateClamps | src/encoder_module.h:210-239 | Motion in a reported direction is added unclamped. For a delta_threshold below 2^31, unreported CW motion is floored at -delta_threshold and unreported CCW motion is capped at +delta_threshold. Above 2^31 the source clamps at the int32-wrapped threshold. |
| Encoder.ReadStepBounds | src/encoder_module.h:221-266 | When the overflow plus the motion fits an int32, so does the new overflow. After any motion, or whenever it held before, the overflow is within delta_threshold. |
| Encoder.BothDirectionsConserveMotion | src/encoder_module.h:221-266 | With both directions reported, the signed sum of the reports plus the final overflow equals the starting overflow plus all the motion read. |
| Encoder.ReadRunReports | src/encoder_module.h:221-266 | Every report is a rotation above delta_threshold in a direction that is reported, and the overflow stays within delta_threshold. |
| Encoder.SilentWhenNothingReported | src/encoder_module.h:221-266 | With neither direction reported, starting within the threshold, no motion ever produces a message. |
| Encoder.OverflowSurvivesReset | src/encoder_module.h:273-277 | An overflow of 10 pulses plus 6 new ones is reported together as CCW(16). That the overflow survives a reset follows from ResetEncoder's frame, which modifies only the counter, and from RunActiveCommand keeping `overflow == old(overflow)` for that command. |
| Encoder.WrappedSumIsSumMod | src/encoder_module.h:294-307 | The uint32 accumulation of the absolute counts is their exact sum modulo 2^32. |
| Encoder.PprIsRoundedMean | src/encoder_module.h:309-311 | When nothing wraps, the PPR is the mean of the absolute counts rounded half up: 10·ppr - 5 <= sum < 10·ppr + 5. |
| Encoder.EncoderModule.constructor | src/encoder_module.h:165-186 | A new module holds the defaults, a zero counter and a zero overflow. |
| Encoder.EncoderModule.SetCustomParameters | src/encoder_module.h:106-112 | The received parameter record replaces the current one. |
| Encoder.EncoderModule.SetupModule | src/encoder_module.h:132-159 | Zeroes the counter and the overflow, restores the defaults (true, true, 15) and reports CW(0). |
| Encoder.EncoderModule.RunActiveCommand | src/encoder_module.h:115-129 | Commands 1 to 3 run ReadEncoder, ResetEncoder and GetPPR. Any other command is not handled and changes nothing. |
| Encoder.EncoderModule.ReadEncoder | src/encoder_module.h:191-270 | Reads and zeroes the counter. The new overflow and the messages are ReadStep's on the direction-corrected motion, and the command completes. |
| Encoder.EncoderModule.ResetEncoder | src/encoder_module.h:273-277 | Zeroes the counter, keeps the overflow and completes. |
| Encoder.EncoderModule.MeasurePpr | src/encoder_module.h:282-322 | Its loop sums the ten counts in uint32 arithmetic. It then reports Ppr (the half-up mean, truncated to uint16) and completes with the counter at zero. |

## Left out

- **module.h, kernel.h and communication.h** are not part of this model. The base class's
  stage, timer, lock and messaging primitives are modelled as the `Runtime.Context` record,
  as the drivers use them. The scheduler loop that calls `RunActiveCommand` is not modelled.
- **Hardware reads are inputs.** `AnalogRead` and `DigitalRead` with their averaging, the
  encoder library's interrupt counting and `readAndReset` are parameters or the `counter`
  field.
- **Blocking waits.** `delayMicroseconds`, `delay` and the busy-waits on the index pin
  (`src/encoder_module.h:287-303`) are not modelled. `GetPPR` works on the ten counts given
  to it.
- **Parameter extraction.** `ExtractModuleParameters` byte deserialisation is not modelled.
  `SetCustomParameters` overwrites the parameter record with a given one and always
  succeeds.
- **Compile-time configuration.** `pinModeFast`/`pinMode` configuration and the
  `static_assert` pin checks are not modelled.
- **Statics are per instance.** The function-local statics of `CheckState` in the lick,
  torque and TTL drivers are modelled as fields of each instance. In the firmware they are
  shared by all instances with the same template arguments.
- **Payload widths.** Payloads are unbounded integers. Every payload the model sends fits
  the firmware's uint16/uint32 prototypes.
- Encoder.EncoderModule.ReadEncoder: requires the direction-corrected motion and
  overflow + motion to fit an int32. The firmware computes these in int32, where an
  overflow is undefined behaviour. The negation of the int32 amortisation is modelled as
  wrapping.
- Encoder.PprIsRoundedMean: stated only when neither the uint32 sum nor the uint16 result
  wraps. The wrapped values are given exactly by `Encoder.WrappedSumIsSumMod` and
  `Encoder.Ppr`.
- Valve.TonePulseOutcome: states what a finished pulse with a buzzer has done, not that it
  finishes. Completion is proved separately as `Valve.TonePulseCompletes`. It takes two
  timing conditions, not the single duration of the pulse without a buzzer: a first tick
  j at least pulse_duration after the opening, and a later tick at least the remaining
  tone time after tick j. That wait is finite even when it wraps (below 2^32 µs).
- Valve.ValveModule.SoundTone: the class runs the corrected Tone guard (`Valve.ToneTick`).
  For command 5 it therefore does the opposite of the guard at src/valve_module.h:345.
  The firmware's own behaviour is modelled only by `Valve.ToneTickAsWritten` (see Findings).
- Valve.ValveModule.RunActiveCommand: for command 5 it runs the corrected Tone, for the
  same reason as SoundTone.
- Torque.CheckStateNeverRepeatsZero: requires both directions to be reported. With one
  disabled, the property fails (DisabledDirectionRepeatsZero).

## Findings

| source | as written | input that shows it | evidently intended | confidence | as-written member | corrected member |
|---|---|---|---|---|---|---|
| src/valve_module.h:345 | `Tone` aborts with TonePinNotSet when the buzzer pin IS configured (`kTonePin != 255`); without a buzzer it writes pin 255 and reports ToneOn | valve on pin 29 with buzzer pin 9, stage 1, lock released: Tone reports TonePinNotSet and aborts | reject only when no buzzer pin is configured (`kTonePin == 255`), as the comment and the status name say | high, not executed | Valve.ToneGuardInverted | Valve.ToneOutcome |
