/**
 The concentration model: the closed-form one-compartment oral-absorption
 ("bi-exponential") curve and its dose-proportional scaling.

 The exponential is not computed here. Every operation takes it as a parameter
 `exp`, and the only fact the model ever relies on is `exp(0.0) == 1.0`
 (predicate `ExpZeroIsOne`). All arithmetic is over `real`; floating-point
 rounding is not modelled.
 */
module Kinetics {

  /** The exponential function, supplied by the caller. */
  type ExpFn = real -> real

  /** The single property of `exp` the model assumes. */
  predicate ExpZeroIsOne(exp: ExpFn) {
    exp(0.0) == 1.0
  }

  /** Model coefficients: peak-concentration scale, absorption and elimination rates. */
  datatype Params = Params(cmax: real, ka: real, ke: real)

  /** The formula divides by `ka - ke`, so it only has a value when the rates differ. */
  predicate Defined(p: Params) {
    p.ka != p.ke
  }

  /** The hard-coded coefficients the application simulates with. */
  const PARAMS: Params := Params(4.816931830999022, 0.23815199140828144, 0.7144975482181155)

  /** Dividing by `ka - ke == 0` raises instead of producing a number. */
  datatype Error = DivisionByZero

  datatype Result<T> = Ok(value: T) | Err(error: Error)

  /**
   Concentration `t` hours after a unit dose:
   cmax * ka / (ka - ke) * (exp(-ke * t) - exp(-ka * t)).
   */
  function BiExponential(t: real, p: Params, exp: ExpFn): (r: Result<real>)
    ensures r.Err? <==> !Defined(p)
    ensures r.Ok? && ExpZeroIsOne(exp) && t == 0.0 ==> r.value == 0.0
  {
    if p.ka - p.ke == 0.0 then Err(DivisionByZero)
    else
      assert t == 0.0 ==> -p.ke * t == 0.0 && -p.ka * t == 0.0;
      Ok((p.cmax * p.ka / (p.ka - p.ke)) * (exp(-p.ke * t) - exp(-p.ka * t)))
  }

  /** The unit-dose curve scaled linearly by `dose`. */
  function PredictConcentration(t: real, p: Params, dose: real, exp: ExpFn): (r: Result<real>)
    ensures r.Err? <==> !Defined(p)
    ensures r.Ok? && dose == 0.0 ==> r.value == 0.0
    ensures r.Ok? && ExpZeroIsOne(exp) && t == 0.0 ==> r.value == 0.0
  {
    match BiExponential(t, p, exp)
    case Err(e) => Err(e)
    case Ok(c) => Ok(c * dose)
  }

  /** Scaling the dose by `k` scales the prediction by `k`. */
  lemma PredictHomogeneous(t: real, p: Params, dose: real, k: real, exp: ExpFn)
    requires Defined(p)
    ensures PredictConcentration(t, p, k * dose, exp).value
         == k * PredictConcentration(t, p, dose, exp).value
  {
  }

  /** The prediction for the sum of two doses is the sum of the predictions. */
  lemma PredictAdditive(t: real, p: Params, d1: real, d2: real, exp: ExpFn)
    requires Defined(p)
    ensures PredictConcentration(t, p, d1 + d2, exp).value
         == PredictConcentration(t, p, d1, exp).value + PredictConcentration(t, p, d2, exp).value
  {
  }

  /**
   The hard-coded coefficients are usable (the rates differ), and absorption is
   slower than elimination: the ordering `ka > ke` that textbook presentations of
   this curve assume does not hold for them.
   */
  lemma ParamsDefined()
    ensures Defined(PARAMS)
    ensures 0.0 < PARAMS.ka < PARAMS.ke
    ensures 0.0 < PARAMS.cmax
    ensures PARAMS.cmax * PARAMS.ka / (PARAMS.ka - PARAMS.ke) < 0.0
  {
  }
}
