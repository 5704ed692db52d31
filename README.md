# Powercore EDM power supply firmware: a Dafny model

This project models the control firmware of the Powercore, an EDM
(electrical discharge machining) power supply that runs MicroPython on a
Raspberry Pi Pico. The firmware does three things, and the model has a
module for each:

- **Waveform parameter calculator** (`waveform.dfy`, module `Waveform`).
  The spark period is the discharge period plus the recovery period. The
  frequency is 10^6 / period. The duty cycle is discharge / period. When
  the power MOSFET's logic is inverted, the duty cycle is replaced by its
  complement. The PWM hardware receives `int(frequency)` and
  `round(duty * 65535)`.
- **Temperature conversion** (`thermistor.dfy`, module `Thermistor`). `n`
  16-bit ADC readings of a thermistor voltage divider are summed in a loop
  and averaged. The average becomes a resistance through the divider
  relation, and the resistance becomes kelvin through the beta equation.
- **Thermal-safety state machine** (`controller.dfy`, module `Controller`,
  as values; `firmware.dfy`, class `Firmware.Powercore`, in place). The
  state is:
  - the six output pins;
  - the waveform globals;
  - the global `PWM_output`;
  - where the program is: starting up, in the main loop, halted by the
    deep sleep, or ended by an uncaught exception.

  Start-up sets the safe pins, calculates the parameters and enables the
  PWM. Each pass of the main loop toggles the user LED and checks
  channel 1 (power resistor), then channel 2 (power MOSFET). A reading
  strictly outside a channel's envelope resets the pins, deinitialises the
  PWM and halts.

`numerics.dfy` (module `Numerics`) holds the parts of Python's numeric
semantics the firmware relies on:
- the exceptions (`ZeroDivisionError`, `ValueError` from `math.log`,
  `NameError`);
- `int()` of a float, which truncates toward zero;
- `round()` of a float, which rounds half to even.

Floats are exact reals throughout. The inputs are integer microseconds and
integer ADC counts, so no rounding of the formulas is lost except the
float rounding itself (see "Left out").

The methods of `Firmware.Powercore` change the object's fields step by
step, as the Python functions do. Each one is proved to leave `State()`
equal to a function of `Controller` applied to the old state. The
properties are proved about those functions.

Each operation (ADC reads, `math.log`) becomes a parameter:
- the ADC reads of one safety check are a `seq<int>` of samples;
- the readings of the main loop are a finite `seq<Readings>`, one element
  per pass;
- `math.log` is a function parameter `ln: real -> real`. The round-trip
  lemma also takes `exp`, with the assumption that `exp` inverts `ln` on
  the positive reals.

Where the code and its comments differ, the model follows
the code:
- The comments at main.py:211 and main.py:224 say "or equal to", but the
  comparisons are strict, so a reading equal to a bound passes.
- On a fault the code resets the pins before it deinitialises the PWM.
- An undefined reading (an average of exactly 0 V or exactly 3.3 V) is not guarded. It
  raises `ZeroDivisionError`, which ends the program without the shutdown
  sequence, so the PWM is still active. The model does the same:
  `Controller.ShortedThermistorAbortsWithPwmActive` and
  `Controller.RunOutcome` state it.

## Model

| member | source | states |
|---|---|---|
| `Numerics.Trunc` | main.py:269 | `int()` of a float: the integer part, truncated toward zero (bounds on both signs determine it) |
| `Numerics.RoundHalfEven` | main.py:272 | `round()` of a float: within 1/2 of the argument, and even on a tie |
| `Waveform.Calculate` | main.py:237-256 | fails with ZeroDivisionError iff discharge + recovery = 0; otherwise period = discharge + recovery, frequency x period = 1 000 000 exactly, and duty x period = the discharge period (the recovery period when inverted) |
| `Waveform.PwmFrequency` | main.py:269 | the frequency given to the hardware is the largest integer not above a non-negative frequency |
| `Waveform.PwmDutyU16` | main.py:272 | the 16-bit duty is within 1/2 of duty x 65535, and a duty in [0, 1] gives a valid u16 in [0, 65535] |
| `Waveform.DutyCycleInUnitInterval` | main.py:253-256 | with both periods non-negative and a positive sum, the duty cycle lies in [0, 1], inverted or not |
| `Waveform.InversionComplementsDuty` | main.py:253-256 | inverting gives duty = 1 - the non-inverted duty, with the same period and frequency |
| `Waveform.ShippedWaveform` | main.py:64-70 | for 40 us / 400 us inverted: period 440, frequency 10^6/440, duty 10/11; the hardware gets 2272 Hz and duty 59577 |
| `Thermistor.VoltageSum` | main.py:170-175 | each valid reading adds between 0 V and 3.3 V, so the loop's sum over `n` valid readings lies in [0, 3.3 n] |
| `Thermistor.VoltageSumIsScaledCount` | main.py:170-175 | the loop's sum of scaled sample voltages is 3.3 x (sum of counts) / 65535 |
| `Thermistor.CountSumBounds` | main.py:173 | `n` readings in [0, 65535] sum to a value in [0, 65535 n] |
| `Thermistor.AverageVoltage` | main.py:167-177 | fails with ZeroDivisionError iff there are no samples; otherwise it is 3.3 x sum / (65535 n) and lies in [0, 3.3] for valid readings |
| `Thermistor.DividerResistance` | main.py:180 | fails with ZeroDivisionError iff the average is 0 V or 3.3 V; otherwise R x (3.3 - V) = pull-up x V, the divider relation |
| `Thermistor.ResistanceDefinedIff` | main.py:167-180 | the resistance is defined iff 0 < sum < 65535 n; it then equals pull-up x sum / (65535 n - sum) and is positive for a positive pull-up |
| `Thermistor.ResistanceIncreasesWithCounts` | main.py:180 | for a fixed number of samples, a larger count sum gives a strictly larger resistance |
| `Thermistor.BetaTemperature` | main.py:183-187 | a temperature is returned iff R0 != 0, R / R0 > 0, beta != 0 and ln(R / R0) / beta + 1 / 298.15 != 0; it is then non-zero and solves 1 / T = 1 / 298.15 + ln(R / R0) / beta; a non-positive ratio raises ValueError, and every other failure is ZeroDivisionError |
| `Thermistor.BetaRoundTrip` | main.py:183-187 | the temperature from the beta equation is non-zero, and solving the equation for the resistance recovers the input resistance |
| `Thermistor.NominalResistanceReadsReference` | main.py:183-187 | a thermistor at its nominal resistance reads 298.15 K |
| `Thermistor.DegenerateReadingRaises` | main.py:177-180 | no samples, an all-zero reading or a full-scale reading makes the conversion raise ZeroDivisionError |
| `Thermistor.Temperature` | main.py:156-193 | `get_temperature`'s value or exception: only ZeroDivisionError or ValueError is raised; a temperature is non-zero and comes only from a non-empty reading, which for valid samples has a count sum strictly inside (0, 65535 n) |
| `Thermistor.TemperatureSolvesBetaEquation` | main.py:167-187 | a temperature read from valid samples solves the beta equation at the closed-form resistance pull-up x sum / (65535 n - sum) |
| `Thermistor.GetTemperature` | main.py:156-193 | the summing loop followed by the conversion returns exactly the specified temperature or exception |
| `Controller.Init` | main.py:279-284 | with a non-zero period, start-up leaves the pins safe except the MOSFET status LED (on), the waveform stored, the PWM active at `int(f)` / `round(d x 65535)`, and the loop running; a zero period aborts with no PWM |
| `Controller.ShippedStart` | main.py:281-283 | the shipped constants start the PWM at 2272 Hz with duty 59577, the MOSFET pin high and the user and MOSFET status LEDs on |
| `Controller.Shutdown` | main.py:214-222 | the shutdown as intended: with a PWM assigned, the safe pins, the PWM deinitialised and Halted, the waveform kept; with none ever assigned, `deinit` raises NameError after the pins are made safe |
| `Controller.ShutdownAsWritten` | main.py:214-222 | the shutdown with `machine` unbound: the safe pins, the PWM deinitialised (if one was assigned) and the waveform kept, but it always ends in NameError |
| `Controller.DeepSleepRaisesNameError` | main.py:222 | as written, a shutdown with a PWM assigned ends in an uncaught NameError instead of the deep sleep, with the pins and the PWM exactly as the intended shutdown leaves them |
| `Controller.Check` | main.py:195-235 | a reading inside the inclusive envelope changes nothing, and on a running board nothing changes only then; a reading outside it gives the safe pins, a deinitialised PWM and Halted; an exception in the reading aborts with nothing else changed |
| `Controller.Cycle` | main.py:286-290 | a pass with both readings in their envelopes only toggles the user LED; any other pass stops the program; a halt leaves the safe pins and the PWM off; an abort leaves the PWM as it was |
| `Controller.ChannelOneCheckedFirst` | main.py:288-289 | when channel 1 is out of its envelope, channel 2's readings do not affect the pass |
| `Controller.NoTransitionOutOfStop` | main.py:222-235 | once the program has halted or aborted, no later pass changes anything |
| `Controller.Run` | main.py:286-290 | the `while True` loop over a finite run of passes: the waveform globals never change, the program is running afterwards only if it was before, and a run from a running board never ends in Booting |
| `Controller.RunEndsAtStop` | main.py:286-290 | a run that stops after `i` passes ignores the rest of the readings |
| `Controller.InEnvelopeKeepsRunning` | main.py:286-290 | while every reading is in its envelope the program keeps running, the PWM and the other pins are unchanged, and the user LED has toggled once per pass |
| `Controller.RunningOnlyIfInEnvelope` | main.py:286-290 | the program is still running after a run only if every reading of every pass was in its envelope |
| `Controller.RunOutcome` | main.py:212-235 | a run from a running board with an active PWM never ends in Booting: it ends running with the same PWM, halted with the safe pins and the PWM deinitialised, or aborted with the PWM left active |
| `Controller.ShortedThermistorAbortsWithPwmActive` | main.py:206 | an all-zero channel 1 reading aborts the pass with ZeroDivisionError and leaves the PWM active |
| `Firmware.Powercore.constructor` | main.py:113-131 | the board at power-on: the given pin levels, no waveform globals, no PWM |
| `Firmware.Powercore.SetDefaultPinStates` | main.py:136-154 | the MOSFET pin at its off level (high when inverted), the user LED on, the other four pins off, nothing else changed |
| `Firmware.Powercore.CalculatePwmParameters` | main.py:237-256 | the waveform globals hold `Waveform.Calculate` of the configured periods, or the program aborted with ZeroDivisionError |
| `Firmware.Powercore.EnableHighPowerPwm` | main.py:258-275 | `PWM_output` is assigned first; the PWM is then active at the converted frequency and duty and the MOSFET status LED is on; if the globals were never written, a NameError with the PWM object created but not configured |
| `Firmware.Powercore.ShutDown` | main.py:214-222 | safe pins, PWM deinitialised, Halted (a NameError if no PWM was ever assigned) |
| `Firmware.Powercore.Start` | main.py:280-284 | the state after the start-up sequence is `Controller.Init` of the power-on state |
| `Firmware.Powercore.ThermalRunawayProtectionCheck` | main.py:195-235 | the state after one check is `Controller.Check` of the old state and the channel's converted reading |
| `Firmware.Powercore.LoopIteration` | main.py:286-290 | the state after one pass is `Controller.Cycle` of the old state |
| `Firmware.Powercore.RunLoop` | main.py:286-290 | the state after the loop has consumed the readings is `Controller.Run` of the old state |
| `Firmware.RunFirmware` | main.py:279-290 | the whole script, from power-on through start-up and the loop, ends in `Controller.Run` of `Controller.Init` of the power-on board |

## Left out

- Hardware I/O is not modelled: pin, ADC and PWM object construction (main.py:113-131), the unused current-sensor ADC (main.py:116), and the switching of GPIO 17 between plain output and PWM. The pins are booleans, and the ADC reads are parameters.
- The `print` diagnostics (main.py:209, 219, 232, 280, 284) are left out because they are output only.
- The one-second `sleep` (main.py:290) is left out because it is timing only.
- `machine.deepsleep()` (main.py:222, 235) is modelled as the intended deep sleep: the program enters the terminal mode Halted. The processor's low-power state itself is not modelled. The as-written NameError is under "Findings".
- The `while True` loop is modelled over a finite sequence of per-pass readings. An infinite run is every finite prefix of it.
- Float rounding is not modelled: `3.3 / 65535`, the voltage sum, the frequency and the duty are exact reals. A float computation could land on a different side of a bound, or of a `round` tie, than the exact value.
- Thermistor.DegenerateReadingRaises: it states the ZeroDivisionError for a full-scale (open-circuit) reading over exact reals only. With floats, three full-scale reads of `65535 * (3.3 / 65535)` need not average to exactly `3.3`. Line 180 then divides by a tiny non-zero number and returns a huge resistance instead of raising. The all-zero and empty cases raise with floats too.
- `math.log` is a parameter. The model does not pick a logarithm, so the beta step is proved only for what the lemmas assume of `ln` and `exp`.
- `number_of_samples` is the length of the sample sequence. A negative count, which Python's `range` would treat as zero, is not modelled.
- When the frequency division raises ZeroDivisionError, `spark_period` has already been assigned. The model does not store that partial global, because the program ends at that point.
- The PWM hardware's accepted frequency range is not modelled.
- The global `temperature = -100` sentinel (main.py:105) and the `last_check_time_*` variables (main.py:108-109) are left out because nothing reads them.
- Waveform.PwmFrequency: its own contract states the truncation only for a non-negative frequency. `Numerics.Trunc` states the negative case, and the frequency is non-negative whenever both periods are.

## Findings

| source | as written | input that shows it | evidently intended | confidence | as-written member | corrected member |
|---|---|---|---|---|---|---|
| main.py:222 | `machine.deepsleep()` names the module `machine`, but main.py:55 imports only `Pin`, `ADC` and `PWM` from it, so the call raises NameError (the same at main.py:235), unless a boot script run before main.py in the same namespace has left `machine` bound | any reading strictly above the maximum or strictly below the minimum, e.g. channel 1 at 400 K with the shipped limits | the processor enters deep sleep and the program halts | medium (not executed; depends on the boot scripts of the MicroPython port) | `Controller.ShutdownAsWritten`, exhibited by `Controller.DeepSleepRaisesNameError` | `Controller.Shutdown`, with the halt proved in `Controller.Check` and `Controller.RunOutcome` |

The pins are reset and the PWM is deinitialised before the failing call, so
the power stage is off either way. Nothing in main.py binds `machine`, but a
boot script that imports it and leaves it bound would make the call work as
intended. The difference is that the program ends
in an exception instead of a deep sleep.
