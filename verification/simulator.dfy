/**
 The schedule simulator: for every dose event of a schedule, a concentration
 series over the shared time axis that is clamped to zero until the dose has
 been taken, plus the elementwise total of those series.

 `Simulate` is the functional specification; `TotalAndIndividualConcentrationOverTime`
 computes the same result the way the application does, one dose at a time,
 accumulating the total in place.
 */
module Simulator {
  import opened Kinetics
  import opened Series
  import opened TimeAxis

  /** One administration: hour of the day it was taken and the amount in mg. */
  datatype DoseEvent = DoseEvent(time: real, amount: real)

  /** Dose events in the order they were entered. */
  type Schedule = seq<DoseEvent>

  /** What one simulation returns: the axis, the total series and one series per dose. */
  datatype Simulation = Simulation(time: seq<real>, total: seq<real>, individual: seq<seq<real>>)

  /**
   A schedule can be simulated when the formula is defined, or when there is no
   dose at all (the formula is then never evaluated).
   */
  predicate Simulable(p: Params, doses: Schedule) {
    Defined(p) || |doses| == 0
  }

  /**
   Concentration at hour `t` due to dose `d` alone: zero up to and including
   the dose time, and from the dose time on the dose-scaled formula (at the
   dose time itself both are zero).
   */
  function Contribution(t: real, d: DoseEvent, p: Params, exp: ExpFn): (c: real)
    requires Defined(p)
    ensures t <= d.time ==> c == 0.0
    ensures ExpZeroIsOne(exp) && t >= d.time ==> c == PredictConcentration(t - d.time, p, d.amount, exp).value
  {
    var elapsed := t - d.time;
    if elapsed > 0.0 then PredictConcentration(elapsed, p, d.amount, exp).value else 0.0
  }

  /** The contribution of every dose of the schedule at hour `t`, in schedule order. */
  function Contributions(t: real, doses: Schedule, p: Params, exp: ExpFn): (cs: seq<real>)
    requires Simulable(p, doses)
    ensures |cs| == |doses|
  {
    seq(|doses|, j requires 0 <= j < |doses| => Contribution(t, doses[j], p, exp))
  }

  /**
   Reference definition of superposition at one instant: the sum over the
   schedule of each dose's contribution at hour `t`.
   */
  function ConcentrationAt(t: real, doses: Schedule, p: Params, exp: ExpFn): (c: real)
    requires Simulable(p, doses)
  {
    Sum(Contributions(t, doses, p, exp))
  }

  /** Adding one more dose at the end adds its contribution, at every hour. */
  lemma ConcentrationAtSnoc(doses: Schedule, p: Params, exp: ExpFn)
    requires |doses| > 0 && Defined(p)
    ensures forall t :: ConcentrationAt(t, doses, p, exp)
              == ConcentrationAt(t, doses[..|doses| - 1], p, exp) + Contribution(t, doses[|doses| - 1], p, exp)
  {
    var n := |doses| - 1;
    forall t
      ensures ConcentrationAt(t, doses, p, exp)
           == ConcentrationAt(t, doses[..n], p, exp) + Contribution(t, doses[n], p, exp)
    {
      assert Contributions(t, doses, p, exp)[..n] == Contributions(t, doses[..n], p, exp);
    }
  }

  /**
   The series of one dose over the axis `time`: exactly zero at every sample
   not strictly after the dose (including the sample equal to the dose time),
   the dose-scaled formula at every other sample.
   */
  function DoseSeries(time: seq<real>, d: DoseEvent, p: Params, exp: ExpFn): (s: seq<real>)
    requires Defined(p)
    ensures |s| == |time|
    ensures forall i :: 0 <= i < |time| && time[i] - d.time <= 0.0 ==> s[i] == 0.0
    ensures forall i :: 0 <= i < |time| && time[i] - d.time > 0.0 ==>
              s[i] == PredictConcentration(time[i] - d.time, p, d.amount, exp).value
  {
    seq(|time|, i requires 0 <= i < |time| => Contribution(time[i], d, p, exp))
  }

  /** One series per dose, in the order of the schedule. */
  function Individuals(time: seq<real>, doses: Schedule, p: Params, exp: ExpFn): (ss: seq<seq<real>>)
    requires Simulable(p, doses)
    ensures |ss| == |doses|
    ensures forall k :: 0 <= k < |doses| ==> ss[k] == DoseSeries(time, doses[k], p, exp)
    decreases |doses|
  {
    if |doses| == 0 then []
    else Individuals(time, doses[..|doses| - 1], p, exp) + [DoseSeries(time, doses[|doses| - 1], p, exp)]
  }

  /**
   The total series, accumulated dose by dose from an all-zero start: at every
   sample it is the superposed concentration of the whole schedule.
   */
  function Total(time: seq<real>, doses: Schedule, p: Params, exp: ExpFn): (s: seq<real>)
    requires Simulable(p, doses)
    ensures |s| == |time|
    ensures forall i :: 0 <= i < |time| ==> s[i] == ConcentrationAt(time[i], doses, p, exp)
    decreases |doses|
  {
    if |doses| == 0 then Zeros(|time|)
    else
      ConcentrationAtSnoc(doses, p, exp);
      Add(Total(time, doses[..|doses| - 1], p, exp), DoseSeries(time, doses[|doses| - 1], p, exp))
  }

  /**
   Simulation of one schedule over the fixed axis. It fails exactly when the
   formula would divide by zero and at least one dose needs it; otherwise the
   axis is `TimeArray()`, there is one full-length series per dose in input
   order, each clamped as `DoseSeries` states, and the total is the superposed
   concentration at every sample.
   */
  function Simulate(doses: Schedule, p: Params, exp: ExpFn): (r: Result<Simulation>)
    ensures r.Err? <==> |doses| > 0 && !Defined(p)
    ensures r.Ok? ==> r.value.time == TimeArray()
    ensures r.Ok? ==> |r.value.total| == SAMPLES && |r.value.individual| == |doses|
    ensures r.Ok? ==> forall k :: 0 <= k < |doses| ==>
              |r.value.individual[k]| == SAMPLES &&
              r.value.individual[k] == DoseSeries(TimeArray(), doses[k], p, exp)
    ensures r.Ok? ==> forall i :: 0 <= i < SAMPLES ==>
              r.value.total[i] == ConcentrationAt(TimeArray()[i], doses, p, exp)
  {
    if !Simulable(p, doses) then Err(DivisionByZero)
    else
      var time := TimeArray();
      Ok(Simulation(time, Total(time, doses, p, exp), Individuals(time, doses, p, exp)))
  }

  /** Simulating one more dose extends the individual list by its series and adds that series into the total. */
  lemma SimulateStep(time: seq<real>, doses: Schedule, k: nat, p: Params, exp: ExpFn)
    requires k < |doses| && Defined(p)
    ensures Total(time, doses[..k + 1], p, exp) == Add(Total(time, doses[..k], p, exp), DoseSeries(time, doses[k], p, exp))
    ensures Individuals(time, doses[..k + 1], p, exp)
         == Individuals(time, doses[..k], p, exp) + [DoseSeries(time, doses[k], p, exp)]
  {
    assert doses[..k + 1][..k] == doses[..k];
  }

  /**
   The `np.where` step for one dose: sample by sample, zero where the elapsed
   time is not positive and the dose-scaled formula elsewhere.
   */
  method DoseSeriesLoop(time: seq<real>, d: DoseEvent, p: Params, exp: ExpFn) returns (series: seq<real>)
    requires Defined(p)
    ensures series == DoseSeries(time, d, p, exp)
  {
    series := [];
    var i := 0;
    while i < |time|
      invariant 0 <= i <= |time|
      invariant series == DoseSeries(time, d, p, exp)[..i]
    {
      var elapsed := time[i] - d.time;
      var value := if elapsed > 0.0 then PredictConcentration(elapsed, p, d.amount, exp).value else 0.0;
      series := series + [value];
      i := i + 1;
    }
  }

  /**
   The application's loop: start from an all-zero total and an empty list, and
   for each dose build its clamped series, add it into the total and append it
   to the list. Raises on the first dose when the formula divides by zero.
   */
  method TotalAndIndividualConcentrationOverTime(doses: Schedule, p: Params, exp: ExpFn)
    returns (r: Result<Simulation>)
    ensures r == Simulate(doses, p, exp)
  {
    var time := TimeArray();
    var total := Zeros(|time|);
    var individual: seq<seq<real>> := [];
    var k := 0;
    while k < |doses|
      invariant 0 <= k <= |doses|
      invariant Simulable(p, doses[..k])
      invariant total == Total(time, doses[..k], p, exp)
      invariant individual == Individuals(time, doses[..k], p, exp)
    {
      if p.ka - p.ke == 0.0 {
        return Err(DivisionByZero);
      }
      var series := DoseSeriesLoop(time, doses[k], p, exp);
      SimulateStep(time, doses, k, p, exp);
      total := Add(total, series);
      individual := individual + [series];
      k := k + 1;
    }
    assert doses[..k] == doses;
    r := Ok(Simulation(time, total, individual));
  }

  /**
   Comparison mode: every schedule is simulated on its own, in input order; the
   whole comparison fails exactly when one of the simulations does.
   */
  function SimulateOptions(options: seq<Schedule>, p: Params, exp: ExpFn): (r: Result<seq<Simulation>>)
    ensures r.Err? <==> exists j :: 0 <= j < |options| && Simulate(options[j], p, exp).Err?
    ensures r.Ok? ==> |r.value| == |options|
    ensures r.Ok? ==> forall j :: 0 <= j < |options| ==> Simulate(options[j], p, exp) == Ok(r.value[j])
    decreases |options|
  {
    if |options| == 0 then Ok([])
    else
      match Simulate(options[0], p, exp)
      case Err(e) => Err(e)
      case Ok(first) =>
        match SimulateOptions(options[1..], p, exp)
        case Err(e) => Err(e)
        case Ok(rest) => Ok([first] + rest)
  }
}
