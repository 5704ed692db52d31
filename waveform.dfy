/** The waveform parameter calculator: the spark period, frequency and duty
    cycle derived from the discharge and recovery periods, and the integer
    frequency and 16-bit duty value handed to the PWM hardware. */
module Waveform {
  import opened Numerics

  /** The three globals `spark_period` (microseconds), `spark_frequency` (Hz)
      and `spark_duty_cycle` (the fraction of the period the pin is high). */
  datatype WaveformSpec = WaveformSpec(periodUs: int, frequencyHz: real, dutyCycle: real)

  const MicrosecondsPerSecond: real := 1000000.0
  const DutyFullScale: int := 65535

  /** The spark period, frequency and duty cycle. The frequency and the duty
      divide by the period, so a zero period raises ZeroDivisionError. With the
      MOSFET logic inverted the pin must be high while the switch is off, so
      the duty is that of the recovery period. */
  function Calculate(dischargeUs: int, recoveryUs: int, invert: bool): (r: Result<WaveformSpec>)
    ensures r.Failure? <==> dischargeUs + recoveryUs == 0
    ensures r.Failure? ==> r.error == ZeroDivisionError
    ensures r.Success? ==> r.value.periodUs == dischargeUs + recoveryUs
    ensures r.Success? ==> r.value.frequencyHz * r.value.periodUs as real == MicrosecondsPerSecond
    ensures r.Success? ==>
      r.value.dutyCycle * r.value.periodUs as real == (if invert then recoveryUs else dischargeUs) as real
  {
    var period := dischargeUs + recoveryUs;
    if period == 0 then Failure(ZeroDivisionError)
    else
      var frequency := 1.0 / (period as real / MicrosecondsPerSecond);
      var duty := dischargeUs as real / (dischargeUs + recoveryUs) as real;
      var spec := WaveformSpec(period, frequency, if invert then 1.0 - duty else duty);
      assert spec.frequencyHz * period as real == MicrosecondsPerSecond;
      assert duty * period as real == dischargeUs as real;
      Success(spec)
  }

  /** `int(spark_frequency)`, the frequency given to `PWM.freq`. */
  function PwmFrequency(w: WaveformSpec): (hz: int)
    ensures 0.0 <= w.frequencyHz ==> 0 <= hz && hz as real <= w.frequencyHz < hz as real + 1.0
  {
    Trunc(w.frequencyHz)
  }

  /** `round(spark_duty_cycle * 65535)`, the value given to `PWM.duty_u16`;
      a duty cycle in [0, 1] always gives a valid unsigned 16-bit value. */
  function PwmDutyU16(w: WaveformSpec): (duty: int)
    ensures 0.0 <= w.dutyCycle <= 1.0 ==> 0 <= duty <= DutyFullScale
    ensures -0.5 <= duty as real - w.dutyCycle * DutyFullScale as real <= 0.5
  {
    var scaled := w.dutyCycle * DutyFullScale as real;
    if 0.0 <= w.dutyCycle <= 1.0 then
      RoundStaysInRange(scaled, 0, DutyFullScale);
      RoundHalfEven(scaled)
    else
      RoundHalfEven(scaled)
  }

  /** With both periods non-negative and not both zero the duty cycle is a
      fraction in [0, 1], whether or not the logic is inverted. */
  lemma DutyCycleInUnitInterval(dischargeUs: int, recoveryUs: int, invert: bool)
    requires 0 <= dischargeUs && 0 <= recoveryUs && 0 < dischargeUs + recoveryUs
    ensures Calculate(dischargeUs, recoveryUs, invert).Success?
    ensures 0.0 <= Calculate(dischargeUs, recoveryUs, invert).value.dutyCycle <= 1.0
  {
    var w := Calculate(dischargeUs, recoveryUs, invert).value;
    var p := (dischargeUs + recoveryUs) as real;
    var part := (if invert then recoveryUs else dischargeUs) as real;
    assert w.dutyCycle * p == part;
    assert 0.0 <= part <= p;
  }

  /** Inverting the MOSFET logic replaces the duty cycle by its complement
      and leaves the period and the frequency alone. */
  lemma InversionComplementsDuty(dischargeUs: int, recoveryUs: int)
    requires dischargeUs + recoveryUs != 0
    ensures Calculate(dischargeUs, recoveryUs, true).Success?
    ensures Calculate(dischargeUs, recoveryUs, true).value.dutyCycle
         == 1.0 - Calculate(dischargeUs, recoveryUs, false).value.dutyCycle
    ensures Calculate(dischargeUs, recoveryUs, true).value.periodUs
         == Calculate(dischargeUs, recoveryUs, false).value.periodUs
    ensures Calculate(dischargeUs, recoveryUs, true).value.frequencyHz
         == Calculate(dischargeUs, recoveryUs, false).value.frequencyHz
  {
  }

  /** The shipped configuration, a 40 us discharge and a 400 us recovery with
      inverted logic: a 440 us period, a duty cycle of 10/11, and the hardware
      receives 2272 Hz and a duty of 59577. */
  lemma ShippedWaveform()
    ensures Calculate(40, 400, true) == Success(WaveformSpec(440, MicrosecondsPerSecond / 440.0, 10.0 / 11.0))
    ensures PwmFrequency(Calculate(40, 400, true).value) == 2272
    ensures PwmDutyU16(Calculate(40, 400, true).value) == 59577
  {
    var w := Calculate(40, 400, true).value;
    assert w.dutyCycle == 10.0 / 11.0;
    assert w.frequencyHz == MicrosecondsPerSecond / 440.0;
    assert 2272.0 <= w.frequencyHz < 2273.0;
    var scaled := w.dutyCycle * DutyFullScale as real;
    assert scaled == 655350.0 / 11.0;
    assert 59577.0 < scaled < 59577.5;
  }
}
