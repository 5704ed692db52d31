/** The firmware's mutable state and the functions of main.py that change it,
    as a class: the six output pins, the waveform globals, `PWM_output`, and
    where the program is. Every method is proved to leave the state the
    corresponding function of module Controller describes. */
module Firmware {
  import opened Numerics
  import opened Controller
  import Waveform
  import Thermistor

  class Powercore {
    const config: Config

    var highVoltageMosfetPin: bool
    var userLed: bool
    var sparkStatusLed: bool
    var mosfetStatusLed: bool
    var shortAlertLed: bool
    var shortAlertMosfetPin: bool
    var waveform: Option<Waveform.WaveformSpec>
    var pwmOutput: Pwm
    var mode: Mode

    /** The board as a value. */
    function State(): Board
      reads this
    {
      Board(Pins(highVoltageMosfetPin, userLed, sparkStatusLed, mosfetStatusLed, shortAlertLed, shortAlertMosfetPin),
            waveform, pwmOutput, mode)
    }

    /** The board at power-on: the pins at whatever level they came up in, no
        waveform globals, no PWM. */
    constructor (config: Config, powerOnPins: Pins)
      ensures this.config == config
      ensures State() == Board(powerOnPins, None, Unassigned, Booting)
    {
      this.config := config;
      highVoltageMosfetPin := powerOnPins.highVoltageMosfet;
      userLed := powerOnPins.userLed;
      sparkStatusLed := powerOnPins.sparkStatusLed;
      mosfetStatusLed := powerOnPins.mosfetStatusLed;
      shortAlertLed := powerOnPins.shortAlertLed;
      shortAlertMosfetPin := powerOnPins.shortAlertMosfet;
      waveform := None;
      pwmOutput := Unassigned;
      mode := Booting;
    }

    /** set_default_pin_states: the MOSFET pin to its off level, the user LED
        on, every other pin off; nothing else changes. */
    method SetDefaultPinStates()
      modifies this
      ensures State() == WithDefaultPins(old(State()), config.invertMosfetLogic)
    {
      if config.invertMosfetLogic {
        highVoltageMosfetPin := true;
      }
      if !config.invertMosfetLogic {
        highVoltageMosfetPin := false;
      }
      userLed := true;
      sparkStatusLed := false;
      mosfetStatusLed := false;
      shortAlertLed := false;
      shortAlertMosfetPin := false;
    }

    /** calculate_PWM_parameters: writes the period, frequency and duty
        globals; a zero period raises ZeroDivisionError. */
    method CalculatePwmParameters()
      modifies this
      ensures State() == WithParameters(old(State()), config)
    {
      var sparkPeriod := config.dischargeUs + config.recoveryUs;
      if sparkPeriod == 0 {
        mode := Aborted(ZeroDivisionError);
        return;
      }
      var sparkFrequency := 1.0 / (sparkPeriod as real / Waveform.MicrosecondsPerSecond);
      var sparkDutyCycle := config.dischargeUs as real / (config.dischargeUs + config.recoveryUs) as real;
      if config.invertMosfetLogic {
        sparkDutyCycle := 1.0 - sparkDutyCycle;
      }
      waveform := Some(Waveform.WaveformSpec(sparkPeriod, sparkFrequency, sparkDutyCycle));
    }

    /** enable_high_power_pwm: assigns `PWM_output` on the MOSFET pin, starts
        it at `int(spark_frequency)` with a 16-bit duty of
        `round(spark_duty_cycle * 65535)` and lights the MOSFET status LED. */
    method EnableHighPowerPwm()
      modifies this
      ensures State() == WithPwmEnabled(old(State()))
    {
      pwmOutput := Created;
      if waveform.None? {
        mode := Aborted(NameError);
        return;
      }
      var w := waveform.value;
      var frequency := Trunc(w.frequencyHz);
      var duty := RoundHalfEven(w.dutyCycle * Waveform.DutyFullScale as real);
      pwmOutput := Active(frequency, duty);
      mosfetStatusLed := true;
    }

    /** The shutdown sequence: safe pins, `PWM_output.deinit()` (a NameError
        when no PWM was ever assigned), then the deep sleep that halts. */
    method ShutDown()
      modifies this
      ensures State() == Shutdown(old(State()), config.invertMosfetLogic)
    {
      SetDefaultPinStates();
      if pwmOutput.Unassigned? {
        mode := Aborted(NameError);
        return;
      }
      pwmOutput := Deinitialised;
      mode := Halted;
    }

    /** The start-up sequence of the main script. */
    method Start()
      requires mode == Booting
      modifies this
      ensures State() == Init(old(State()), config)
    {
      SetDefaultPinStates();
      CalculatePwmParameters();
      if mode != Booting {
        return;
      }
      EnableHighPowerPwm();
      mode := Running;
    }

    /** thermal_runaway_protection_check: reads the channel's temperature from
        its three samples; strictly above the maximum or strictly below the
        minimum, it puts the pins in the safe state, deinitialises the PWM and
        halts. An exception raised by the conversion ends the program. */
    method ThermalRunawayProtectionCheck(samples: seq<int>, maximumKelvin: real, minimumKelvin: real, ln: real -> real)
      requires |samples| == SamplesPerCheck
      modifies this
      ensures State() == Check(old(State()), Reading(samples, config, ln), maximumKelvin, minimumKelvin,
                               config.invertMosfetLogic)
    {
      var observed := Thermistor.GetTemperature(samples, config.pullupOhms, config.nominalOhms,
                                                config.betaCoefficient, ln);
      if observed.Failure? {
        mode := Aborted(observed.error);
        return;
      }
      var observedKelvin := observed.value;
      if observedKelvin > maximumKelvin {
        ShutDown();
        return;
      }
      if observedKelvin < minimumKelvin {
        ShutDown();
        return;
      }
    }

    /** One pass of the `while True` loop (the one-second sleep is left out). */
    method LoopIteration(readings: Readings, ln: real -> real)
      requires mode == Running && WellFormed(readings)
      modifies this
      ensures State() == Cycle(old(State()), readings, config, ln)
    {
      userLed := !userLed;
      ThermalRunawayProtectionCheck(readings.resistorSamples, config.resistorMaxKelvin, config.resistorMinKelvin, ln);
      if mode != Running {
        return;
      }
      ThermalRunawayProtectionCheck(readings.mosfetSamples, config.mosfetMaxKelvin, config.mosfetMinKelvin, ln);
    }

    /** The `while True` loop over a finite run of readings; it stops as soon
        as the program is no longer running. */
    method RunLoop(cycles: seq<Readings>, ln: real -> real)
      requires mode == Running
      requires forall i :: 0 <= i < |cycles| ==> WellFormed(cycles[i])
      modifies this
      ensures State() == Run(old(State()), cycles, config, ln)
    {
      ghost var start := State();
      var i := 0;
      while i < |cycles| && mode == Running
        invariant 0 <= i <= |cycles|
        invariant State() == Run(start, cycles[..i], config, ln)
      {
        RunStep(start, cycles, i, config, ln);
        LoopIteration(cycles[i], ln);
        i := i + 1;
      }
      if i < |cycles| {
        RunEndsAtStop(start, cycles, i, config, ln);
      } else {
        assert cycles[..i] == cycles;
      }
    }
  }

  /** The whole script: power on, start up, then the main loop. */
  method RunFirmware(config: Config, powerOnPins: Pins, cycles: seq<Readings>, ln: real -> real)
    returns (board: Powercore)
    requires forall i :: 0 <= i < |cycles| ==> WellFormed(cycles[i])
    ensures board.State() == Run(Init(Board(powerOnPins, None, Unassigned, Booting), config), cycles, config, ln)
  {
    board := new Powercore(config, powerOnPins);
    board.Start();
    if board.mode != Running {
      NoTransitionOutOfStop(board.State(), cycles, config, ln);
      return;
    }
    board.RunLoop(cycles, ln);
  }
}
