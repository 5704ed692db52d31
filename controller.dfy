/** The thermal-safety state machine of the firmware, as values: the board
    (six output pins, the waveform globals, the PWM output and where the
    program is), the start-up sequence, one safety check, one pass of the
    main loop, and any number of passes. The class in module Firmware
    updates the same state in place and is proved to follow these functions. */
module Controller {
  import opened Numerics
  import Waveform
  import Thermistor

  /** The level of each output pin, true for `on()`. */
  datatype Pins = Pins(
    highVoltageMosfet: bool,  // GPIO 17, drives the gate of the power MOSFET
    userLed: bool,            // GPIO 25, the heartbeat LED on the Pico
    sparkStatusLed: bool,     // GPIO 16
    mosfetStatusLed: bool,    // GPIO 18, lit while the waveform is enabled
    shortAlertLed: bool,      // GPIO 19
    shortAlertMosfet: bool)   // GPIO 20, pulls the short alert port low when on

  /** The global `PWM_output`: not yet assigned, constructed on the MOSFET
      pin but not yet given a frequency and duty, generating a waveform, or
      switched off by `deinit()`. */
  datatype Pwm = Unassigned | Created | Active(frequencyHz: int, dutyU16: int) | Deinitialised

  /** Where the program is: starting up, in the main loop, parked by the
      deep-sleep call after a thermal fault, or ended by an uncaught exception. */
  datatype Mode = Booting | Running | Halted | Aborted(fault: Fault)

  datatype Board = Board(pins: Pins, waveform: Option<Waveform.WaveformSpec>, pwm: Pwm, mode: Mode)

  /** The compiled-in constants. */
  datatype Config = Config(
    dischargeUs: int,
    recoveryUs: int,
    invertMosfetLogic: bool,
    resistorMaxKelvin: real,
    resistorMinKelvin: real,
    mosfetMaxKelvin: real,
    mosfetMinKelvin: real,
    betaCoefficient: real,
    nominalOhms: real,
    pullupOhms: real)

  /** The constants as shipped. */
  const Shipped := Config(40, 400, true, 368.15, 273.15, 353.2, 273.15, 3950.0, 100000.0, 10000.0)

  /** Each safety check averages this many ADC readings. */
  const SamplesPerCheck := 3

  /** The ADC readings one pass of the main loop takes: channel 1 watches
      the power resistor, channel 2 the power MOSFET. */
  datatype Readings = Readings(resistorSamples: seq<int>, mosfetSamples: seq<int>)

  predicate WellFormed(readings: Readings) {
    |readings.resistorSamples| == SamplesPerCheck && |readings.mosfetSamples| == SamplesPerCheck
  }

  /** The program has stopped: no further statement runs. */
  predicate Stopped(b: Board) {
    b.mode.Halted? || b.mode.Aborted?
  }

  /** The safe pin pattern: the MOSFET pin at the level that switches the
      MOSFET off (high when its logic is inverted), the user LED on and
      every other pin off. */
  function SafePins(invertMosfetLogic: bool): Pins {
    Pins(invertMosfetLogic, true, false, false, false, false)
  }

  function WithDefaultPins(b: Board, invertMosfetLogic: bool): Board {
    b.(pins := SafePins(invertMosfetLogic))
  }

  /** The waveform globals written, or the program aborted when the
      calculation raises. */
  function WithParameters(b: Board, cfg: Config): Board {
    match Waveform.Calculate(cfg.dischargeUs, cfg.recoveryUs, cfg.invertMosfetLogic)
    case Success(w) => b.(waveform := Some(w))
    case Failure(f) => b.(mode := Aborted(f))
  }

  /** The PWM started from the waveform globals and the MOSFET status LED lit.
      `PWM_output` is assigned before the globals are read, so without them
      the program ends in a NameError with the PWM object already created. */
  function WithPwmEnabled(b: Board): Board {
    match b.waveform
    case None => b.(pwm := Created, mode := Aborted(NameError))
    case Some(w) =>
      b.(pwm := Active(Waveform.PwmFrequency(w), Waveform.PwmDutyU16(w)),
         pins := b.pins.(mosfetStatusLed := true))
  }

  /** The start-up sequence: safe pins, then the waveform parameters, then
      the PWM. A non-zero period always gets the PWM running with the MOSFET
      status LED on and every other pin safe; a zero period aborts before any
      PWM is assigned. */
  function Init(b: Board, cfg: Config): (r: Board)
    requires b.mode == Booting
    ensures cfg.dischargeUs + cfg.recoveryUs != 0 ==>
      var w := Waveform.Calculate(cfg.dischargeUs, cfg.recoveryUs, cfg.invertMosfetLogic).value;
      r == Board(SafePins(cfg.invertMosfetLogic).(mosfetStatusLed := true), Some(w),
                 Active(Waveform.PwmFrequency(w), Waveform.PwmDutyU16(w)), Running)
    ensures cfg.dischargeUs + cfg.recoveryUs == 0 ==>
      r == b.(pins := SafePins(cfg.invertMosfetLogic), mode := Aborted(ZeroDivisionError))
  {
    var configured := WithParameters(WithDefaultPins(b, cfg.invertMosfetLogic), cfg);
    if configured.mode != Booting then configured
    else WithPwmEnabled(configured).(mode := Running)
  }

  /** The shipped constants start a 2272 Hz waveform with a 16-bit duty of 59577. */
  lemma ShippedStart(b: Board)
    requires b.mode == Booting
    ensures Init(b, Shipped).mode == Running
    ensures Init(b, Shipped).pwm == Active(2272, 59577)
    ensures Init(b, Shipped).pins == Pins(true, true, false, true, false, false)
  {
    Waveform.ShippedWaveform();
  }

  /** A reading inside the inclusive envelope [minKelvin, maxKelvin]. */
  predicate InEnvelope(reading: Result<real>, maxKelvin: real, minKelvin: real) {
    reading.Success? && minKelvin <= reading.value <= maxKelvin
  }

  /** The shutdown sequence: safe pins, `PWM_output.deinit()`, deep sleep,
      with the deep sleep halting the processor as intended. */
  function Shutdown(b: Board, invertMosfetLogic: bool): (r: Board)
    ensures !b.pwm.Unassigned? ==> r == Board(SafePins(invertMosfetLogic), b.waveform, Deinitialised, Halted)
    ensures b.pwm.Unassigned? ==> r == b.(pins := SafePins(invertMosfetLogic), mode := Aborted(NameError))
  {
    var reset := WithDefaultPins(b, invertMosfetLogic);
    if reset.pwm.Unassigned? then reset.(mode := Aborted(NameError))
    else reset.(pwm := Deinitialised, mode := Halted)
  }

  /** The shutdown sequence as main.py's own text reads: main.py imports only
      `Pin`, `ADC` and `PWM` from `machine` and never binds the name `machine`,
      so unless a boot script run before it has left `machine` bound in the
      same namespace, `machine.deepsleep()` raises NameError once the pins are
      reset and the PWM is deinitialised. */
  function ShutdownAsWritten(b: Board, invertMosfetLogic: bool): (r: Board)
    ensures r.mode == Aborted(NameError)
    ensures r.pins == SafePins(invertMosfetLogic) && r.waveform == b.waveform
    ensures r.pwm == (if b.pwm.Unassigned? then Unassigned else Deinitialised)
  {
    var reset := WithDefaultPins(b, invertMosfetLogic);
    if reset.pwm.Unassigned? then reset.(mode := Aborted(NameError))
    else reset.(pwm := Deinitialised, mode := Aborted(NameError))
  }

  /** With `machine` unbound, every shutdown ends in an uncaught NameError
      rather than the deep sleep; the pins and the PWM are left exactly as the intended
      shutdown leaves them. */
  lemma DeepSleepRaisesNameError(b: Board, invertMosfetLogic: bool)
    requires !b.pwm.Unassigned?
    ensures Shutdown(b, invertMosfetLogic).mode == Halted
    ensures ShutdownAsWritten(b, invertMosfetLogic).mode == Aborted(NameError)
    ensures ShutdownAsWritten(b, invertMosfetLogic) == Shutdown(b, invertMosfetLogic).(mode := Aborted(NameError))
  {
  }

  /** One thermal runaway protection check on a reading (or on the exception
      taking the reading raised). Only a reading strictly above the maximum or
      strictly below the minimum shuts down; a reading equal to either bound
      leaves the board as it was. */
  function Check(b: Board, reading: Result<real>, maxKelvin: real, minKelvin: real, invertMosfetLogic: bool): (r: Board)
    ensures InEnvelope(reading, maxKelvin, minKelvin) ==> r == b
    ensures reading.Success? && !InEnvelope(reading, maxKelvin, minKelvin) && !b.pwm.Unassigned? ==>
      r == Board(SafePins(invertMosfetLogic), b.waveform, Deinitialised, Halted)
    ensures reading.Failure? ==> r == b.(mode := Aborted(reading.error))
    ensures b.mode == Running ==> (r == b <==> InEnvelope(reading, maxKelvin, minKelvin))
  {
    match reading
    case Failure(f) => b.(mode := Aborted(f))
    case Success(kelvin) =>
      if kelvin > maxKelvin then Shutdown(b, invertMosfetLogic)
      else if kelvin < minKelvin then Shutdown(b, invertMosfetLogic)
      else b
  }

  /** The temperature a channel reports for its readings. */
  function Reading(samples: seq<int>, cfg: Config, ln: real -> real): Result<real> {
    Thermistor.Temperature(samples, cfg.pullupOhms, cfg.nominalOhms, cfg.betaCoefficient, ln)
  }

  predicate CycleInEnvelope(readings: Readings, cfg: Config, ln: real -> real) {
    && InEnvelope(Reading(readings.resistorSamples, cfg, ln), cfg.resistorMaxKelvin, cfg.resistorMinKelvin)
    && InEnvelope(Reading(readings.mosfetSamples, cfg, ln), cfg.mosfetMaxKelvin, cfg.mosfetMinKelvin)
  }

  /** The user LED toggled, nothing else changed. */
  function Heartbeat(b: Board): Board {
    b.(pins := b.pins.(userLed := !b.pins.userLed))
  }

  /** One pass of the main loop: toggle the user LED, check channel 1, then,
      if the program is still running, check channel 2. A pass whose readings
      are all in their envelopes only toggles the LED; any other pass stops
      the program, and a halted board is in the safe state with the PWM off. */
  function Cycle(b: Board, readings: Readings, cfg: Config, ln: real -> real): (r: Board)
    requires b.mode == Running
    ensures CycleInEnvelope(readings, cfg, ln) ==> r == Heartbeat(b)
    ensures !CycleInEnvelope(readings, cfg, ln) ==> Stopped(r)
    ensures r.waveform == b.waveform
    ensures r.mode == Halted && !b.pwm.Unassigned? ==>
      r.pins == SafePins(cfg.invertMosfetLogic) && r.pwm == Deinitialised
    ensures r.mode.Aborted? ==> r.pwm == b.pwm
  {
    var afterResistor := Check(Heartbeat(b), Reading(readings.resistorSamples, cfg, ln),
                               cfg.resistorMaxKelvin, cfg.resistorMinKelvin, cfg.invertMosfetLogic);
    if afterResistor.mode != Running then afterResistor
    else Check(afterResistor, Reading(readings.mosfetSamples, cfg, ln),
               cfg.mosfetMaxKelvin, cfg.mosfetMinKelvin, cfg.invertMosfetLogic)
  }

  /** Channel 1 is checked before channel 2: when channel 1 is out of its
      envelope, channel 2's readings make no difference. */
  lemma ChannelOneCheckedFirst(b: Board, readings: Readings, otherMosfetSamples: seq<int>, cfg: Config, ln: real -> real)
    requires b.mode == Running
    requires !InEnvelope(Reading(readings.resistorSamples, cfg, ln), cfg.resistorMaxKelvin, cfg.resistorMinKelvin)
    ensures Cycle(b, readings, cfg, ln) == Cycle(b, readings.(mosfetSamples := otherMosfetSamples), cfg, ln)
  {
  }

  /** The main loop over a finite run of readings: a pass runs only while the
      program is running. */
  function Run(b: Board, cycles: seq<Readings>, cfg: Config, ln: real -> real): (r: Board)
    ensures r.waveform == b.waveform
    ensures r.mode == Running ==> b.mode == Running
    ensures b.mode == Running ==> !r.mode.Booting?
    decreases |cycles|
  {
    if cycles == [] then b
    else
      var before := Run(b, cycles[..|cycles| - 1], cfg, ln);
      if before.mode == Running then Cycle(before, cycles[|cycles| - 1], cfg, ln) else before
  }

  /** A run one pass longer is one more pass, when the program is still running. */
  lemma RunStep(b: Board, cycles: seq<Readings>, i: nat, cfg: Config, ln: real -> real)
    requires i < |cycles| && Run(b, cycles[..i], cfg, ln).mode == Running
    ensures Run(b, cycles[..i + 1], cfg, ln) == Cycle(Run(b, cycles[..i], cfg, ln), cycles[i], cfg, ln)
  {
    assert cycles[..i + 1][..i] == cycles[..i];
  }

  /** Once the program is not running, no later pass changes anything: there
      is no transition out of Halted (or out of an abort). */
  lemma {:induction false} NoTransitionOutOfStop(b: Board, cycles: seq<Readings>, cfg: Config, ln: real -> real)
    requires b.mode != Running
    ensures Run(b, cycles, cfg, ln) == b
  {
    if cycles != [] {
      NoTransitionOutOfStop(b, cycles[..|cycles| - 1], cfg, ln);
    }
  }

  /** When the program stops after the first `i` passes, the rest of the
      readings are never looked at. */
  lemma {:induction false} RunEndsAtStop(b: Board, cycles: seq<Readings>, i: nat, cfg: Config, ln: real -> real)
    requires i <= |cycles|
    requires Run(b, cycles[..i], cfg, ln).mode != Running
    ensures Run(b, cycles, cfg, ln) == Run(b, cycles[..i], cfg, ln)
    decreases |cycles| - i
  {
    if i < |cycles| {
      var longer := cycles[..i + 1];
      assert longer[..i] == cycles[..i];
      assert Run(b, longer, cfg, ln) == Run(b, cycles[..i], cfg, ln);
      RunEndsAtStop(b, cycles, i + 1, cfg, ln);
    } else {
      assert cycles[..i] == cycles;
    }
  }

  /** A pass whose readings are all in their envelopes only toggles the LED. */
  lemma HealthyPass(b: Board, readings: Readings, cfg: Config, ln: real -> real)
    requires b.mode == Running && CycleInEnvelope(readings, cfg, ln)
    ensures Cycle(b, readings, cfg, ln) == Heartbeat(b)
  {
  }

  /** One more pass flips the parity of the number of passes. */
  lemma ParityFlips(n: int)
    requires 0 < n
    ensures (n % 2 == 1) == !((n - 1) % 2 == 1)
  {
  }

  /** Scenario of a healthy machine: while every reading is in its envelope
      the program keeps running, the PWM and every pin but the user LED stay
      as they were, and the user LED has toggled once per pass. */
  lemma {:induction false} InEnvelopeKeepsRunning(b: Board, cycles: seq<Readings>, cfg: Config, ln: real -> real)
    requires b.mode == Running
    requires forall i :: 0 <= i < |cycles| ==> CycleInEnvelope(cycles[i], cfg, ln)
    ensures Run(b, cycles, cfg, ln) == b.(pins := b.pins.(userLed := b.pins.userLed != (|cycles| % 2 == 1)))
  {
    if cycles != [] {
      var n := |cycles|;
      var prefix := cycles[..n - 1];
      forall i | 0 <= i < |prefix|
        ensures CycleInEnvelope(prefix[i], cfg, ln)
      {
        assert prefix[i] == cycles[i];
      }
      InEnvelopeKeepsRunning(b, prefix, cfg, ln);
      HealthyPass(Run(b, prefix, cfg, ln), cycles[n - 1], cfg, ln);
      ParityFlips(n);
    }
  }

  /** Conversely, the program is still running after a run of passes only if
      every reading of every pass was in its envelope. */
  lemma {:induction false} RunningOnlyIfInEnvelope(b: Board, cycles: seq<Readings>, cfg: Config, ln: real -> real)
    requires b.mode == Running
    requires Run(b, cycles, cfg, ln).mode == Running
    ensures forall i :: 0 <= i < |cycles| ==> CycleInEnvelope(cycles[i], cfg, ln)
  {
    if cycles != [] {
      var prefix := cycles[..|cycles| - 1];
      RunningOnlyIfInEnvelope(b, prefix, cfg, ln);
      assert forall i :: 0 <= i < |prefix| ==> prefix[i] == cycles[i];
    }
  }

  /** Wherever a run from a running board with an active PWM ends: still
      running with the same PWM; halted in the safe pin pattern with the PWM
      deinitialised; or aborted by an exception with the PWM left as it was. */
  lemma {:induction false} RunOutcome(b: Board, cycles: seq<Readings>, cfg: Config, ln: real -> real)
    requires b.mode == Running && b.pwm.Active?
    ensures !Run(b, cycles, cfg, ln).mode.Booting?
    ensures Run(b, cycles, cfg, ln).waveform == b.waveform
    ensures Run(b, cycles, cfg, ln).mode == Running ==> Run(b, cycles, cfg, ln).pwm == b.pwm
    ensures Run(b, cycles, cfg, ln).mode == Halted ==>
      Run(b, cycles, cfg, ln).pins == SafePins(cfg.invertMosfetLogic) && Run(b, cycles, cfg, ln).pwm == Deinitialised
    ensures Run(b, cycles, cfg, ln).mode.Aborted? ==> Run(b, cycles, cfg, ln).pwm == b.pwm
  {
    if cycles != [] {
      RunOutcome(b, cycles[..|cycles| - 1], cfg, ln);
    }
  }

  /** A channel whose readings are all zero (a thermistor shorted to ground)
      makes the temperature conversion divide by zero: the exception ends
      the program without the shutdown sequence, so the PWM is still active. */
  lemma ShortedThermistorAbortsWithPwmActive(b: Board, readings: Readings, cfg: Config, ln: real -> real)
    requires b.mode == Running && b.pwm.Active?
    requires readings.resistorSamples == [0, 0, 0]
    ensures Cycle(b, readings, cfg, ln).mode == Aborted(ZeroDivisionError)
    ensures Cycle(b, readings, cfg, ln).pwm == b.pwm
  {
    var samples := readings.resistorSamples;
    assert Thermistor.CountSum(samples) == 0 by {
      assert samples[..2] == [0, 0];
      assert [0, 0][..1] == [0];
      assert [0][..0] == [];
    }
    Thermistor.DegenerateReadingRaises(samples, cfg.pullupOhms, cfg.nominalOhms, cfg.betaCoefficient, ln);
  }
}
