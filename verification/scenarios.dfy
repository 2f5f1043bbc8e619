/**
 The application's default comparison, worked through on the model: Option 1
 is 30 mg at 07:30 and 30 mg at 13:00, Option 2 is 70 mg at 07:30, both
 simulated with the hard-coded coefficients over the shared axis.
 */
module Scenarios {
  import opened Kinetics
  import opened Series
  import opened TimeAxis
  import opened Simulator
  import opened Options
  import opened Superposition

  /** The rows the first editor starts with. */
  function DefaultRows1(): (rows: seq<Row>)
    ensures |rows| == 2
    ensures forall i :: 0 <= i < |rows| ==> DoseInEditorRange(rows[i])
    ensures rows[0].time.hour < rows[1].time.hour
  {
    [Row(ClockTime(7, 30, 0), 30.0), Row(ClockTime(13, 0, 0), 30.0)]
  }

  /** The rows the second editor starts with. */
  function DefaultRows2(): (rows: seq<Row>)
    ensures |rows| == 1
    ensures forall i :: 0 <= i < |rows| ==> DoseInEditorRange(rows[i])
  {
    [Row(ClockTime(7, 30, 0), 70.0)]
  }

  /** The default rows convert to the dose events (7.5 h, 30 mg), (13 h, 30 mg) and (7.5 h, 70 mg). */
  lemma DefaultOptions()
    ensures GetOptions(DefaultRows1()) == [DoseEvent(7.5, 30.0), DoseEvent(13.0, 30.0)]
    ensures GetOptions(DefaultRows2()) == [DoseEvent(7.5, 70.0)]
  {
  }

  /**
   No sample of the axis falls on 07:30 or 13:00: 07:30 lies strictly between
   samples 149 and 150, and 13:00 strictly between samples 479 and 480.
   */
  lemma DoseTimesBetweenSamples()
    ensures TimeArray()[149] < 7.5 < TimeArray()[150]
    ensures TimeArray()[479] < 13.0 < TimeArray()[480]
  {
    TimeArrayShape();
  }

  /** Every sample from `i` on lies past a dose taken before sample `i`. */
  lemma AfterSample(i: nat, j: nat, at: real)
    requires i <= j < SAMPLES
    requires at < TimeArray()[i]
    ensures at < TimeArray()[j]
  {
    if i < j {
      TimeArrayIncreasing(i, j);
    }
  }

  /** Every sample up to `j` lies before a dose taken after sample `j`. */
  lemma BeforeSample(i: nat, j: nat, at: real)
    requires i <= j < SAMPLES
    requires TimeArray()[j] < at
    ensures TimeArray()[i] < at
  {
    if i < j {
      TimeArrayIncreasing(i, j);
    }
  }

  /**
   The 07:30 dose of 30 mg contributes exactly zero to samples 0 to 149 and the
   dose-scaled formula from sample 150 on.
   */
  lemma MorningDoseSeries(exp: ExpFn, i: nat)
    requires i < SAMPLES
    ensures i < 150 ==> DoseSeries(TimeArray(), DoseEvent(7.5, 30.0), PARAMS, exp)[i] == 0.0
    ensures i >= 150 ==>
              DoseSeries(TimeArray(), DoseEvent(7.5, 30.0), PARAMS, exp)[i]
              == PredictConcentration(TimeArray()[i] - 7.5, PARAMS, 30.0, exp).value
  {
    ParamsDefined();
    DoseTimesBetweenSamples();
    if i < 150 {
      BeforeSample(i, 149, 7.5);
    } else {
      AfterSample(150, i, 7.5);
    }
  }

  /**
   Until the second dose of Option 1 takes effect (samples 0 to 479), Option 2's
   total is Option 1's total scaled by 70/30: both curves come from one dose
   at 07:30 and differ only in its amount.
   */
  lemma OptionsProportionalBeforeSecondDose(exp: ExpFn, i: nat)
    requires i < 480
    ensures Simulate(GetOptions(DefaultRows1()), PARAMS, exp).Ok?
    ensures Simulate(GetOptions(DefaultRows2()), PARAMS, exp).Ok?
    ensures Simulate(GetOptions(DefaultRows2()), PARAMS, exp).value.total[i]
         == (7.0 / 3.0) * Simulate(GetOptions(DefaultRows1()), PARAMS, exp).value.total[i]
  {
    ParamsDefined();
    DefaultOptions();
    DoseTimesBetweenSamples();
    BeforeSample(i, 479, 13.0);
    var t := TimeArray()[i];
    var morning := DoseEvent(7.5, 30.0);
    var one := [morning, DoseEvent(13.0, 30.0)];
    var two := [DoseEvent(7.5, 70.0)];
    ConcentrationAtSnoc(one, PARAMS, exp);
    ConcentrationAtSnoc(one[..1], PARAMS, exp);
    ConcentrationAtSnoc(two, PARAMS, exp);
    assert one[..1][..0] == [] && two[..0] == [];
    assert ConcentrationAt(t, one, PARAMS, exp) == Contribution(t, morning, PARAMS, exp);
    ContributionScales(t, morning, 7.0 / 3.0, PARAMS, exp);
    assert DoseEvent(morning.time, (7.0 / 3.0) * morning.amount) == two[0];
    MultiplyEqual(7.0 / 3.0, Contribution(t, morning, PARAMS, exp), ConcentrationAt(t, one, PARAMS, exp));
  }

  /** The default comparison never divides by zero: both options simulate. */
  lemma DefaultComparisonSucceeds(exp: ExpFn)
    ensures SimulateOptions([GetOptions(DefaultRows1()), GetOptions(DefaultRows2())], PARAMS, exp).Ok?
  {
    ParamsDefined();
  }

  /** With the hard-coded coefficients every schedule, converted from any rows, simulates. */
  lemma EditorRowsAlwaysSimulate(rows: seq<Row>, exp: ExpFn)
    ensures Simulate(GetOptions(rows), PARAMS, exp).Ok?
    ensures |Simulate(GetOptions(rows), PARAMS, exp).value.individual| == |rows|
  {
    ParamsDefined();
  }
}
