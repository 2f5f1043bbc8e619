/**
 The shared time axis: `num` evenly spaced hour-of-day samples from `start`
 to `stop`, both ends included, as numpy's `linspace` produces them.
 */
module TimeAxis {

  /** First hour of the simulated day. */
  const DAY_START: real := 5.0

  /** Last hour of the simulated day (midnight). */
  const DAY_END: real := 24.0

  /** Sample count: one per minute of the window, `(24 - 5) * 60`. */
  const SAMPLES: nat := (24 - 5) * 60

  /**
   `num` samples, the first `start`, the last `stop`, each step
   `(stop - start) / (num - 1)`; a single sample is `start`, zero samples is empty.
   */
  function Linspace(start: real, stop: real, num: nat): (xs: seq<real>)
    ensures |xs| == num
    ensures num > 0 ==> xs[0] == start
  {
    if num <= 1 then seq(num, _ => start)
    else
      var step := (stop - start) / ((num - 1) as real);
      seq(num, i => start + (i as real) * step)
  }

  /** The step between two neighbouring samples of `Linspace(start, stop, num)`. */
  function Step(start: real, stop: real, num: nat): (step: real)
    requires num > 1
  {
    (stop - start) / ((num - 1) as real)
  }

  /** Sample `i` of `Linspace` is `start` plus `i` steps. */
  lemma LinspaceAt(start: real, stop: real, num: nat, i: nat)
    requires 1 < num && i < num
    ensures Linspace(start, stop, num)[i] == start + (i as real) * Step(start, stop, num)
  {
  }

  /** Length, both end points and even spacing of `Linspace`. */
  lemma LinspaceShape(start: real, stop: real, num: nat)
    ensures |Linspace(start, stop, num)| == num
    ensures num > 0 ==> Linspace(start, stop, num)[0] == start
    ensures num > 1 ==> Linspace(start, stop, num)[num - 1] == stop
    ensures num > 1 ==> forall i :: 0 <= i < num - 1 ==>
              Linspace(start, stop, num)[i + 1] - Linspace(start, stop, num)[i] == Step(start, stop, num)
  {
    if num > 1 {
      var xs := Linspace(start, stop, num);
      var step := Step(start, stop, num);
      var n := (num - 1) as real;
      assert n * step == stop - start;
      LinspaceAt(start, stop, num, num - 1);
      forall i | 0 <= i < num - 1
        ensures xs[i + 1] - xs[i] == step
      {
        LinspaceAt(start, stop, num, i);
        LinspaceAt(start, stop, num, i + 1);
        assert ((i + 1) as real) * step == (i as real) * step + step;
      }
    }
  }

  /** With `start < stop` the samples are strictly increasing. */
  lemma {:induction false} LinspaceIncreasing(start: real, stop: real, num: nat, i: nat, j: nat)
    requires start < stop
    requires i < j < num
    ensures Linspace(start, stop, num)[i] < Linspace(start, stop, num)[j]
  {
    var xs := Linspace(start, stop, num);
    var step := Step(start, stop, num);
    assert step > 0.0;
    assert xs[j] - xs[i] == ((j - i) as real) * step;
    assert ((j - i) as real) * step > 0.0;
  }

  /** The simulator's axis: `Linspace(5, 24, 1140)`. */
  function TimeArray(): (ts: seq<real>)
    ensures |ts| == SAMPLES
  {
    Linspace(DAY_START, DAY_END, SAMPLES)
  }

  /**
   The axis has 1140 samples from 5 to 24 spaced 19/1139 of an hour apart, and
   every sample is `5 + i * 19 / 1139`.
   */
  lemma TimeArrayShape()
    ensures |TimeArray()| == 1140
    ensures TimeArray()[0] == 5.0
    ensures TimeArray()[1139] == 24.0
    ensures forall i :: 0 <= i < 1140 ==> TimeArray()[i] == 5.0 + (i as real) * 19.0 / 1139.0
    ensures forall i :: 0 <= i < 1139 ==> TimeArray()[i + 1] - TimeArray()[i] == 19.0 / 1139.0
  {
    LinspaceShape(DAY_START, DAY_END, SAMPLES);
  }

  /** Every sample lies in the window [5, 24], strictly increasing. */
  lemma TimeArrayIncreasing(i: nat, j: nat)
    requires i < j < SAMPLES
    ensures DAY_START <= TimeArray()[i] < TimeArray()[j] <= DAY_END
  {
    LinspaceShape(DAY_START, DAY_END, SAMPLES);
    LinspaceIncreasing(DAY_START, DAY_END, SAMPLES, i, j);
    if i > 0 {
      LinspaceIncreasing(DAY_START, DAY_END, SAMPLES, 0, i);
    }
    if j < SAMPLES - 1 {
      LinspaceIncreasing(DAY_START, DAY_END, SAMPLES, j, SAMPLES - 1);
    }
  }

  /**
   The step is not one minute: 1140 samples over 19 hours leave 1139 gaps, so
   each is slightly longer than 1/60 of an hour.
   */
  lemma StepIsLongerThanAMinute()
    ensures TimeArray()[1] - TimeArray()[0] > 1.0 / 60.0
  {
    TimeArrayShape();
  }
}
