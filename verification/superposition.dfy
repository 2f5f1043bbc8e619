/**
 Properties of the simulator that relate several schedules or several calls:
 the total as the sum of the individual series, superposition over
 concatenated schedules, dose linearity, and the clamping policy seen against
 the unclamped formula.
 */
module Superposition {
  import opened Kinetics
  import opened Series
  import opened TimeAxis
  import opened Simulator

  /** Sum of sample `i` over a list of series, added in list order. */
  function ColumnSum(ss: seq<seq<real>>, i: nat): (total: real)
    requires forall k :: 0 <= k < |ss| ==> i < |ss[k]|
    decreases |ss|
  {
    if |ss| == 0 then 0.0 else ColumnSum(ss[..|ss| - 1], i) + ss[|ss| - 1][i]
  }

  /** Every dose event with its amount multiplied by `k`, in the same order. */
  function ScaleDoses(doses: Schedule, k: real): (scaled: Schedule)
    ensures |scaled| == |doses|
    ensures forall j :: 0 <= j < |doses| ==> scaled[j] == DoseEvent(doses[j].time, k * doses[j].amount)
  {
    seq(|doses|, j requires 0 <= j < |doses| => DoseEvent(doses[j].time, k * doses[j].amount))
  }

  /** The total is, sample by sample, the sum of the individual series. */
  lemma {:induction false} TotalIsSumOfIndividuals(time: seq<real>, doses: Schedule, p: Params, exp: ExpFn, i: nat)
    requires Simulable(p, doses)
    requires i < |time|
    ensures Total(time, doses, p, exp)[i] == ColumnSum(Individuals(time, doses, p, exp), i)
    decreases |doses|
  {
    if |doses| > 0 {
      var n := |doses| - 1;
      var ss := Individuals(time, doses, p, exp);
      assert ss[..n] == Individuals(time, doses[..n], p, exp);
      TotalIsSumOfIndividuals(time, doses[..n], p, exp, i);
    }
  }

  /** An empty schedule gives an all-zero total and no individual series, whatever the coefficients. */
  lemma EmptySchedule(p: Params, exp: ExpFn)
    ensures Simulate([], p, exp) == Ok(Simulation(TimeArray(), Zeros(SAMPLES), []))
  {
  }

  /** Superposition at one instant: the doses of `a ++ b` contribute what `a` and `b` do separately. */
  lemma ConcentrationAtConcat(t: real, a: Schedule, b: Schedule, p: Params, exp: ExpFn)
    requires Simulable(p, a + b)
    ensures ConcentrationAt(t, a + b, p, exp) == ConcentrationAt(t, a, p, exp) + ConcentrationAt(t, b, p, exp)
  {
    assert Contributions(t, a + b, p, exp) == Contributions(t, a, p, exp) + Contributions(t, b, p, exp);
    SumConcat(Contributions(t, a, p, exp), Contributions(t, b, p, exp));
  }

  /** The individual series of `a ++ b` are those of `a` followed by those of `b`. */
  lemma IndividualsConcat(time: seq<real>, a: Schedule, b: Schedule, p: Params, exp: ExpFn)
    requires Simulable(p, a + b)
    ensures Individuals(time, a + b, p, exp) == Individuals(time, a, p, exp) + Individuals(time, b, p, exp)
  {
  }

  /** The total of `a ++ b` is the elementwise sum of the totals of `a` and `b`. */
  lemma TotalConcat(time: seq<real>, a: Schedule, b: Schedule, p: Params, exp: ExpFn)
    requires Simulable(p, a + b)
    ensures Total(time, a + b, p, exp) == Add(Total(time, a, p, exp), Total(time, b, p, exp))
  {
    forall i | 0 <= i < |time|
      ensures Total(time, a + b, p, exp)[i] == Total(time, a, p, exp)[i] + Total(time, b, p, exp)[i]
    {
      ConcentrationAtConcat(time[i], a, b, p, exp);
    }
  }

  /**
   Superposition for whole simulations: simulating `a ++ b` succeeds exactly
   when both parts do, its total is the sum of their totals and its individual
   series are theirs, concatenated.
   */
  lemma SimulateConcat(a: Schedule, b: Schedule, p: Params, exp: ExpFn)
    ensures Simulate(a + b, p, exp).Ok? <==> Simulate(a, p, exp).Ok? && Simulate(b, p, exp).Ok?
    ensures Simulate(a + b, p, exp).Ok? ==>
              Simulate(a + b, p, exp).value.total
                == Add(Simulate(a, p, exp).value.total, Simulate(b, p, exp).value.total)
              && Simulate(a + b, p, exp).value.individual
                == Simulate(a, p, exp).value.individual + Simulate(b, p, exp).value.individual
  {
    if Simulable(p, a + b) {
      TotalConcat(TimeArray(), a, b, p, exp);
      IndividualsConcat(TimeArray(), a, b, p, exp);
    }
  }

  /** The order of the dose events does not change the total. */
  lemma TotalOrderIrrelevant(time: seq<real>, a: Schedule, b: Schedule, p: Params, exp: ExpFn)
    requires Simulable(p, a + b)
    ensures Total(time, a + b, p, exp) == Total(time, b + a, p, exp)
  {
    TotalConcat(time, a, b, p, exp);
    TotalConcat(time, b, a, p, exp);
  }

  /** Scaling one dose amount by `k` scales its contribution by `k`, clamped or not. */
  lemma ContributionScales(t: real, d: DoseEvent, k: real, p: Params, exp: ExpFn)
    requires Defined(p)
    ensures Contribution(t, DoseEvent(d.time, k * d.amount), p, exp) == k * Contribution(t, d, p, exp)
  {
    PredictHomogeneous(t - d.time, p, d.amount, k, exp);
  }

  /** Scaling every dose amount by `k` scales each dose's contribution by `k`. */
  lemma ContributionsScale(t: real, doses: Schedule, k: real, p: Params, exp: ExpFn)
    requires Defined(p)
    ensures Contributions(t, ScaleDoses(doses, k), p, exp) == Scale(k, Contributions(t, doses, p, exp))
  {
    var cs := Contributions(t, doses, p, exp);
    var scaled := Contributions(t, ScaleDoses(doses, k), p, exp);
    forall j | 0 <= j < |doses|
      ensures scaled[j] == k * cs[j]
    {
      ContributionScales(t, doses[j], k, p, exp);
    }
    ScalePointwise(k, cs, scaled);
  }

  /** Scaling every dose amount by `k` scales the superposed concentration by `k`. */
  lemma ConcentrationAtScales(t: real, doses: Schedule, k: real, p: Params, exp: ExpFn)
    requires Defined(p)
    ensures ConcentrationAt(t, ScaleDoses(doses, k), p, exp) == k * ConcentrationAt(t, doses, p, exp)
  {
    var cs := Contributions(t, doses, p, exp);
    ContributionsScale(t, doses, k, p, exp);
    SumScale(k, cs);
    MultiplyEqual(k, Sum(cs), ConcentrationAt(t, doses, p, exp));
  }

  /** Dose linearity of the whole total series. */
  lemma TotalScales(time: seq<real>, doses: Schedule, k: real, p: Params, exp: ExpFn)
    requires Defined(p)
    ensures Total(time, ScaleDoses(doses, k), p, exp) == Scale(k, Total(time, doses, p, exp))
  {
    var scaled := Total(time, ScaleDoses(doses, k), p, exp);
    var base := Total(time, doses, p, exp);
    forall i | 0 <= i < |time|
      ensures scaled[i] == k * base[i]
    {
      ConcentrationAtScales(time[i], doses, k, p, exp);
      MultiplyEqual(k, ConcentrationAt(time[i], doses, p, exp), base[i]);
    }
    ScalePointwise(k, base, scaled);
  }

  /** Two doses taken at the same hour act as one dose of their combined amount. */
  lemma SplitDose(time: seq<real>, at: real, a: real, b: real, p: Params, exp: ExpFn)
    requires Defined(p)
    ensures Total(time, [DoseEvent(at, a), DoseEvent(at, b)], p, exp) == Total(time, [DoseEvent(at, a + b)], p, exp)
  {
    var two := [DoseEvent(at, a), DoseEvent(at, b)];
    assert two[..1] == [DoseEvent(at, a)];
    forall i | 0 <= i < |time|
      ensures Total(time, two, p, exp)[i] == Total(time, [DoseEvent(at, a + b)], p, exp)[i]
    {
      PredictAdditive(time[i] - at, p, a, b, exp);
    }
  }

  /**
   Clamping only ever replaces the formula before the dose: at the dose time
   itself the formula is already zero, so at every hour `t >= d.time` the
   clamped contribution equals the unclamped dose-scaled formula.
   */
  lemma ClampOnlyBeforeDose(t: real, d: DoseEvent, p: Params, exp: ExpFn)
    requires Defined(p)
    requires ExpZeroIsOne(exp)
    requires t >= d.time
    ensures Contribution(t, d, p, exp) == PredictConcentration(t - d.time, p, d.amount, exp).value
  {
  }

  /**
   On the increasing time axis the clamped samples of a dose form a prefix:
   once a sample is past the dose, every later sample is too.
   */
  lemma ClampedRegionIsPrefix(d: DoseEvent, p: Params, exp: ExpFn, i: nat, j: nat)
    requires Defined(p)
    requires i < j < SAMPLES
    requires TimeArray()[i] - d.time > 0.0
    ensures TimeArray()[j] - d.time > 0.0
    ensures DoseSeries(TimeArray(), d, p, exp)[j]
         == PredictConcentration(TimeArray()[j] - d.time, p, d.amount, exp).value
  {
    TimeArrayIncreasing(i, j);
  }

  /**
   Schedules compared side by side do not interact: comparing `a ++ b` gives
   the results of comparing `a` followed by those of comparing `b`, and a
   single schedule gives exactly its own simulation.
   */
  lemma SimulateOptionsConcat(a: seq<Schedule>, b: seq<Schedule>, p: Params, exp: ExpFn)
    ensures SimulateOptions(a + b, p, exp).Ok? <==> SimulateOptions(a, p, exp).Ok? && SimulateOptions(b, p, exp).Ok?
    ensures SimulateOptions(a + b, p, exp).Ok? ==>
              SimulateOptions(a + b, p, exp).value == SimulateOptions(a, p, exp).value + SimulateOptions(b, p, exp).value
  {
    var whole := SimulateOptions(a + b, p, exp);
    var left := SimulateOptions(a, p, exp);
    var right := SimulateOptions(b, p, exp);
    if whole.Err? {
      var j :| 0 <= j < |a + b| && Simulate((a + b)[j], p, exp).Err?;
      if j < |a| {
        assert Simulate(a[j], p, exp).Err?;
      } else {
        assert Simulate(b[j - |a|], p, exp).Err?;
      }
    } else {
      forall j | 0 <= j < |a|
        ensures Simulate(a[j], p, exp).Ok?
      {
        assert (a + b)[j] == a[j];
      }
      forall j | 0 <= j < |b|
        ensures Simulate(b[j], p, exp).Ok?
      {
        assert (a + b)[|a| + j] == b[j];
      }
      var joined := left.value + right.value;
      forall j | 0 <= j < |whole.value|
        ensures whole.value[j] == joined[j]
      {
        if j < |a| {
          assert (a + b)[j] == a[j];
        } else {
          assert (a + b)[j] == b[j - |a|];
        }
      }
    }
  }
}
