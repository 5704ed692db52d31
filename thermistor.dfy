/** The temperature conversion: `n` 16-bit ADC readings of a thermistor
    voltage divider (the thermistor pulled up to 3.3 V through a fixed
    resistor) are averaged, turned into the thermistor's resistance, and the
    resistance into kelvin by the beta equation. The ADC reads are the
    parameter `samples`; math.log is the parameter `ln`. */
module Thermistor {
  import opened Numerics

  const AdcFullScale: int := 65535
  const SupplyVolts: real := 3.3
  /** 25 degrees Celsius, the temperature at which the thermistor has its nominal resistance. */
  const ReferenceKelvin: real := 25.0 + 273.15

  /** Every reading is what `read_u16` can return. */
  predicate ValidSamples(samples: seq<int>) {
    forall i :: 0 <= i < |samples| ==> 0 <= samples[i] <= AdcFullScale
  }

  /** The voltage of one reading, scaled so that full scale is 3.3 V. */
  function SampleVoltage(count: int): real {
    count as real * (SupplyVolts / AdcFullScale as real)
  }

  /** `voltage_sum` once the loop has added the voltages of `samples` in
      order; each valid reading adds between 0 V and 3.3 V. */
  function VoltageSum(samples: seq<int>): (sum: real)
    ensures ValidSamples(samples) ==> 0.0 <= sum <= SupplyVolts * |samples| as real
  {
    if samples == [] then 0.0
    else
      var prefix := samples[..|samples| - 1];
      assert ValidSamples(samples) ==> ValidSamples(prefix) by {
        assert forall i :: 0 <= i < |prefix| ==> prefix[i] == samples[i];
      }
      VoltageSum(prefix) + SampleVoltage(samples[|samples| - 1])
  }

  /** The sum of the raw readings. */
  function CountSum(samples: seq<int>): int {
    if samples == [] then 0
    else CountSum(samples[..|samples| - 1]) + samples[|samples| - 1]
  }

  /** Summing the scaled voltages is scaling the sum of the counts. */
  lemma {:induction false} VoltageSumIsScaledCount(samples: seq<int>)
    ensures VoltageSum(samples) == SupplyVolts * CountSum(samples) as real / AdcFullScale as real
  {
    if samples != [] {
      VoltageSumIsScaledCount(samples[..|samples| - 1]);
    }
  }

  /** `n` valid readings sum to at most `65535 * n`. */
  lemma {:induction false} CountSumBounds(samples: seq<int>)
    requires ValidSamples(samples)
    ensures 0 <= CountSum(samples) <= AdcFullScale * |samples|
  {
    if samples != [] {
      var prefix := samples[..|samples| - 1];
      assert forall i :: 0 <= i < |prefix| ==> prefix[i] == samples[i];
      CountSumBounds(prefix);
    }
  }

  /** Dividing `3.3 * s / 65535` by `n` is dividing `3.3 * s` by `65535 * n`. */
  lemma AverageOfScaledSum(voltageSum: real, s: real, n: real)
    requires 0.0 < n && voltageSum == SupplyVolts * s / AdcFullScale as real
    ensures voltageSum / n == SupplyVolts * s / (AdcFullScale as real * n)
  {
  }

  /** A fraction `s / full` in [0, 1] of the rail lies between 0 V and 3.3 V. */
  lemma FractionOfRail(s: real, full: real)
    requires 0.0 <= s <= full && 0.0 < full
    ensures 0.0 <= SupplyVolts * s / full <= SupplyVolts
  {
    assert SupplyVolts * s / full * full == SupplyVolts * s;
  }

  /** `voltage_sum / number_of_samples`, which raises ZeroDivisionError when
      there are no samples. Otherwise it is `3.3 * sum / (65535 * n)` and,
      for valid readings, lies in [0, 3.3]. */
  function AverageVoltage(samples: seq<int>): (r: Result<real>)
    ensures r.Failure? <==> |samples| == 0
    ensures r.Failure? ==> r.error == ZeroDivisionError
    ensures r.Success? ==>
      r.value == SupplyVolts * CountSum(samples) as real / (AdcFullScale * |samples|) as real
    ensures r.Success? && ValidSamples(samples) ==> 0.0 <= r.value <= SupplyVolts
  {
    if |samples| == 0 then Failure(ZeroDivisionError)
    else
      var n := |samples|;
      var s := CountSum(samples) as real;
      var average := VoltageSum(samples) / n as real;
      VoltageSumIsScaledCount(samples);
      AverageOfScaledSum(VoltageSum(samples), s, n as real);
      assert (AdcFullScale * n) as real == AdcFullScale as real * n as real;
      if ValidSamples(samples) then
        CountSumBounds(samples);
        FractionOfRail(s, (AdcFullScale * n) as real);
        Success(average)
      else
        Success(average)
  }

  /** The resistance of the thermistor, `pullup / (3.3 / V - 1)`. Both
      divisions fail at the ends of the range: a zero voltage, and a voltage
      equal to the 3.3 V rail. Otherwise the result satisfies the divider
      relation `R * (3.3 - V) == pullup * V`. */
  function DividerResistance(pullupOhms: real, averageVolts: real): (r: Result<real>)
    ensures r.Failure? <==> averageVolts == 0.0 || averageVolts == SupplyVolts
    ensures r.Failure? ==> r.error == ZeroDivisionError
    ensures r.Success? ==> r.value * (SupplyVolts - averageVolts) == pullupOhms * averageVolts
  {
    if averageVolts == 0.0 then Failure(ZeroDivisionError)
    else
      var ratio := SupplyVolts / averageVolts - 1.0;
      assert ratio * averageVolts == SupplyVolts - averageVolts;
      if ratio == 0.0 then Failure(ZeroDivisionError)
      else Success(pullupOhms / ratio)
  }

  /** The resistance computed from a set of readings (lines 167-180). */
  function SampleResistance(samples: seq<int>, pullupOhms: real): Result<real> {
    var average :- AverageVoltage(samples);
    DividerResistance(pullupOhms, average)
  }

  /** The resistance as a closed form in the raw counts, `pullup * sum / (65535 * n - sum)`. */
  function ClosedFormResistance(pullupOhms: real, countSum: int, n: int): real
    requires countSum < AdcFullScale * n
  {
    pullupOhms * countSum as real / ((AdcFullScale * n) as real - countSum as real)
  }

  /** The divider arithmetic on an average of `3.3 * s / full` volts, over the
      reals: it fails at `s == 0` and `s == full` and is `p * s / (full - s)`
      strictly between. */
  lemma DividerOnScaledAverage(pullupOhms: real, s: real, full: real)
    requires 0.0 <= s <= full && 0.0 < full
    ensures DividerResistance(pullupOhms, SupplyVolts * s / full).Success? <==> 0.0 < s < full
    ensures 0.0 < s < full ==>
      DividerResistance(pullupOhms, SupplyVolts * s / full).value == pullupOhms * s / (full - s)
    ensures 0.0 < s < full && 0.0 < pullupOhms ==> 0.0 < pullupOhms * s / (full - s)
  {
    var v := SupplyVolts * s / full;
    assert v * full == SupplyVolts * s;
    if v == SupplyVolts {
      assert s == full;
    }
    if v == 0.0 {
      assert s == 0.0;
    }
    if 0.0 < s < full {
      var r := DividerResistance(pullupOhms, v).value;
      assert r * (SupplyVolts - v) == pullupOhms * v;
      assert (SupplyVolts - v) * full == SupplyVolts * (full - s);
      assert r * (full - s) == pullupOhms * s by {
        assert r * (SupplyVolts - v) * full == pullupOhms * v * full;
        assert r * SupplyVolts * (full - s) == pullupOhms * SupplyVolts * s;
      }
    }
  }

  /** The resistance is defined exactly when the count sum lies strictly
      between 0 and `65535 * n`; it is then `pullup * sum / (65535 * n - sum)`,
      and positive for a positive pull-up. */
  lemma {:induction false} ResistanceDefinedIff(samples: seq<int>, pullupOhms: real)
    requires ValidSamples(samples)
    ensures SampleResistance(samples, pullupOhms).Success?
        <==> 0 < |samples| && 0 < CountSum(samples) < AdcFullScale * |samples|
    ensures SampleResistance(samples, pullupOhms).Failure? ==>
      SampleResistance(samples, pullupOhms).error == ZeroDivisionError
    ensures SampleResistance(samples, pullupOhms).Success? ==>
      SampleResistance(samples, pullupOhms).value == ClosedFormResistance(pullupOhms, CountSum(samples), |samples|)
    ensures SampleResistance(samples, pullupOhms).Success? && 0.0 < pullupOhms ==>
      0.0 < SampleResistance(samples, pullupOhms).value
  {
    if |samples| > 0 {
      CountSumBounds(samples);
      ScaledResistance(samples, pullupOhms);
      var s := CountSum(samples) as real;
      var full := (AdcFullScale * |samples|) as real;
      DividerOnScaledAverage(pullupOhms, s, full);
    }
  }

  /** With readings present, the resistance is the divider applied to `3.3 * sum / (65535 * n)`. */
  lemma {:induction false} ScaledResistance(samples: seq<int>, pullupOhms: real)
    requires |samples| > 0
    ensures SampleResistance(samples, pullupOhms)
         == DividerResistance(pullupOhms, SupplyVolts * CountSum(samples) as real / (AdcFullScale * |samples|) as real)
  {
  }

  /** The closed form grows strictly with the count sum on (0, 65535 * n). */
  lemma ClosedFormIncreasing(pullupOhms: real, sumA: int, sumB: int, n: int)
    requires 0.0 < pullupOhms && 0 < sumA < sumB < AdcFullScale * n
    ensures ClosedFormResistance(pullupOhms, sumA, n) < ClosedFormResistance(pullupOhms, sumB, n)
  {
    var full := (AdcFullScale * n) as real;
    var sa, sb := sumA as real, sumB as real;
    var da, db := full - sa, full - sb;
    var x, y := pullupOhms * sa / da, pullupOhms * sb / db;
    assert x * da == pullupOhms * sa;
    assert y * db == pullupOhms * sb;
    assert sa * db < sb * da by {
      assert sb * da - sa * db == full * (sb - sa);
      assert 0.0 < full && 0.0 < sb - sa;
      assert 0.0 < full * (sb - sa);
    }
    assert pullupOhms * (sa * db) < pullupOhms * (sb * da);
  }

  /** For a positive pull-up and a fixed number of readings, a larger count
      sum gives a strictly larger resistance. */
  lemma {:induction false} ResistanceIncreasesWithCounts(a: seq<int>, b: seq<int>, pullupOhms: real)
    requires ValidSamples(a) && ValidSamples(b) && |a| == |b| && 0.0 < pullupOhms
    requires 0 < CountSum(a) < CountSum(b) < AdcFullScale * |b|
    ensures SampleResistance(a, pullupOhms).Success? && SampleResistance(b, pullupOhms).Success?
    ensures SampleResistance(a, pullupOhms).value < SampleResistance(b, pullupOhms).value
  {
    ResistanceDefinedIff(a, pullupOhms);
    ResistanceDefinedIff(b, pullupOhms);
    ClosedFormIncreasing(pullupOhms, CountSum(a), CountSum(b), |a|);
  }

  /** The beta equation, `1/T = 1/T0 + ln(R / R0) / beta`, evaluated as the
      source does it step by step; each division by zero and the logarithm of
      a non-positive ratio raise. A temperature is returned exactly when every
      step is defined, and it then solves the equation. */
  function BetaTemperature(resistanceOhms: real, nominalOhms: real, beta: real, ln: real -> real): (r: Result<real>)
    ensures r.Success? <==>
      nominalOhms != 0.0 && resistanceOhms / nominalOhms > 0.0 && beta != 0.0
      && ln(resistanceOhms / nominalOhms) / beta + 1.0 / ReferenceKelvin != 0.0
    ensures nominalOhms != 0.0 && resistanceOhms / nominalOhms <= 0.0 ==> r == Failure(ValueError)
    ensures r.Failure? ==> r.error == ZeroDivisionError || r.error == ValueError
    ensures r.Success? ==>
      r.value != 0.0 && 1.0 / r.value == ln(resistanceOhms / nominalOhms) / beta + 1.0 / ReferenceKelvin
  {
    if nominalOhms == 0.0 then Failure(ZeroDivisionError)
    else
      var ratio := resistanceOhms / nominalOhms;
      if ratio <= 0.0 then Failure(ValueError)
      else if beta == 0.0 then Failure(ZeroDivisionError)
      else
        var inverseKelvin := ln(ratio) / beta + 1.0 / ReferenceKelvin;
        if inverseKelvin == 0.0 then Failure(ZeroDivisionError)
        else Success(1.0 / inverseKelvin)
  }

  /** The beta equation solved for the resistance, `R = R0 * exp(beta * (1/T - 1/T0))`. */
  function BetaResistance(kelvin: real, nominalOhms: real, beta: real, exp: real -> real): real
    requires kelvin != 0.0
  {
    nominalOhms * exp(beta * (1.0 / kelvin - 1.0 / ReferenceKelvin))
  }

  /** Solving `1/T = 1/T0 + L / beta` for `L`. */
  lemma BetaEquationSolved(logRatio: real, beta: real, kelvin: real)
    requires beta != 0.0 && logRatio / beta + 1.0 / ReferenceKelvin != 0.0
    requires kelvin == 1.0 / (logRatio / beta + 1.0 / ReferenceKelvin)
    ensures kelvin != 0.0 && beta * (1.0 / kelvin - 1.0 / ReferenceKelvin) == logRatio
  {
    var inverseKelvin := logRatio / beta + 1.0 / ReferenceKelvin;
    assert kelvin * inverseKelvin == 1.0;
    assert 1.0 / kelvin == inverseKelvin;
  }

  /** `BetaResistance` is the nominal resistance scaled by the exponential. */
  lemma BetaResistanceOfExponent(kelvin: real, nominalOhms: real, beta: real, exp: real -> real, scale: real)
    requires kelvin != 0.0 && exp(beta * (1.0 / kelvin - 1.0 / ReferenceKelvin)) == scale
    ensures BetaResistance(kelvin, nominalOhms, beta, exp) == nominalOhms * scale
  {
  }

  /** Converting a resistance to a temperature and back recovers the
      resistance, whenever `exp` inverts `ln` on the positive reals. */
  lemma BetaRoundTrip(resistanceOhms: real, nominalOhms: real, beta: real, ln: real -> real, exp: real -> real)
    requires forall x :: 0.0 < x ==> exp(ln(x)) == x
    requires BetaTemperature(resistanceOhms, nominalOhms, beta, ln).Success?
    ensures BetaTemperature(resistanceOhms, nominalOhms, beta, ln).value != 0.0
    ensures BetaResistance(BetaTemperature(resistanceOhms, nominalOhms, beta, ln).value, nominalOhms, beta, exp)
         == resistanceOhms
  {
    var ratio := resistanceOhms / nominalOhms;
    var t := BetaTemperature(resistanceOhms, nominalOhms, beta, ln).value;
    BetaEquationSolved(ln(ratio), beta, t);
    assert exp(ln(ratio)) == ratio;
    BetaResistanceOfExponent(t, nominalOhms, beta, exp, ratio);
    assert nominalOhms * ratio == resistanceOhms;
  }

  /** A thermistor at its nominal resistance reads the reference temperature, 298.15 K. */
  lemma NominalResistanceReadsReference(nominalOhms: real, beta: real, ln: real -> real)
    requires 0.0 < nominalOhms && beta != 0.0 && ln(1.0) == 0.0
    ensures BetaTemperature(nominalOhms, nominalOhms, beta, ln) == Success(ReferenceKelvin)
  {
    assert nominalOhms / nominalOhms == 1.0;
  }

  /** The temperature `get_temperature` returns, or the exception it raises.
      A temperature comes only from a non-empty reading, and for valid
      readings only from one strictly inside the ADC range. */
  function Temperature(samples: seq<int>, pullupOhms: real, nominalOhms: real, beta: real, ln: real -> real)
    : (r: Result<real>)
    ensures r.Failure? ==> r.error == ZeroDivisionError || r.error == ValueError
    ensures r.Success? ==> 0 < |samples| && r.value != 0.0
    ensures r.Success? && ValidSamples(samples) ==> 0 < CountSum(samples) < AdcFullScale * |samples|
  {
    var resistance :- SampleResistance(samples, pullupOhms);
    if ValidSamples(samples) then
      ResistanceDefinedIff(samples, pullupOhms);
      BetaTemperature(resistance, nominalOhms, beta, ln)
    else
      BetaTemperature(resistance, nominalOhms, beta, ln)
  }

  /** A temperature read from valid samples solves the beta equation at the
      closed-form resistance of those samples. */
  lemma {:induction false} TemperatureSolvesBetaEquation(samples: seq<int>, pullupOhms: real, nominalOhms: real,
                                                          beta: real, ln: real -> real)
    requires ValidSamples(samples)
    requires Temperature(samples, pullupOhms, nominalOhms, beta, ln).Success?
    ensures 0 < CountSum(samples) < AdcFullScale * |samples|
    ensures 1.0 / Temperature(samples, pullupOhms, nominalOhms, beta, ln).value
         == ln(ClosedFormResistance(pullupOhms, CountSum(samples), |samples|) / nominalOhms) / beta
            + 1.0 / ReferenceKelvin
  {
    ResistanceDefinedIff(samples, pullupOhms);
    var resistance := ClosedFormResistance(pullupOhms, CountSum(samples), |samples|);
    assert SampleResistance(samples, pullupOhms) == Success(resistance);
    assert Temperature(samples, pullupOhms, nominalOhms, beta, ln) == BetaTemperature(resistance, nominalOhms, beta, ln);
  }

  /** A reading at either end of the ADC range (a thermistor shorted to
      ground or an open circuit pulled to the rail), or no readings at all,
      makes `get_temperature` raise ZeroDivisionError instead of returning a
      temperature, with the voltages summed exactly. */
  lemma {:induction false} DegenerateReadingRaises(samples: seq<int>, pullupOhms: real, nominalOhms: real, beta: real, ln: real -> real)
    requires ValidSamples(samples)
    requires |samples| == 0 || CountSum(samples) == 0 || CountSum(samples) == AdcFullScale * |samples|
    ensures Temperature(samples, pullupOhms, nominalOhms, beta, ln) == Failure(ZeroDivisionError)
  {
    ResistanceDefinedIff(samples, pullupOhms);
  }

  /** get_temperature: sums the sample voltages in a loop, averages them and
      converts the average to kelvin. */
  method GetTemperature(samples: seq<int>, pullupOhms: real, nominalOhms: real, beta: real, ln: real -> real)
    returns (t: Result<real>)
    ensures t == Temperature(samples, pullupOhms, nominalOhms, beta, ln)
  {
    var voltageSum := 0.0;
    for i := 0 to |samples|
      invariant voltageSum == VoltageSum(samples[..i])
    {
      assert samples[..i + 1][..i] == samples[..i];
      var voltage := samples[i] as real * (SupplyVolts / AdcFullScale as real);
      voltageSum := voltageSum + voltage;
    }
    assert samples[..|samples|] == samples;
    if |samples| == 0 {
      return Failure(ZeroDivisionError);
    }
    var averageVoltage := voltageSum / |samples| as real;
    var resistance :- DividerResistance(pullupOhms, averageVoltage);
    t := BetaTemperature(resistance, nominalOhms, beta, ln);
  }
}
