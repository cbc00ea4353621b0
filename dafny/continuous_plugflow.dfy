/** Spatial ALD on moving particles with plug-flow precursor transport
    (src/aldsim/core/ideal/particle/continuous/plugflow.py). */
module ContinuousPlugFlow {
  import opened Common

  /** `exp(-Da(1-t))`, the fraction of precursor left after the remaining
      residence time 1 - t. */
  function Decay(Da: real, t: real): real
  {
    Exp(-Da * (1.0 - t))
  }

  /** `1 - t*exp(-Da(1-t))`, the denominator shared by coverage and precursor
      away from t = 1. */
  function SharedDenominator(Da: real, t: real): real
  {
    1.0 - t * Decay(Da, t)
  }

  /** Where calc_coverage and calc_precursor evaluate without dividing by
      zero: 1 + Da at t = 1, the shared denominator elsewhere. */
  predicate Defined(Da: real, t: real)
  {
    if t == 1.0 then 1.0 + Da != 0.0 else SharedDenominator(Da, t) != 0.0
  }

  /** Module-level calc_coverage(Da, t), with its t == 1 branch. */
  function Coverage(Da: real, t: real): (c: real)
    requires Defined(Da, t)
    ensures t == 1.0 ==> c * (1.0 + Da) == Da
  {
    if t == 1.0 then Da / (1.0 + Da)
    else
      var x := Decay(Da, t);
      1.0 - (1.0 - t) / (1.0 - t * x)
  }

  /** Module-level calc_precursor(Da, t), with its t == 1 branch. */
  function Precursor(Da: real, t: real): (p: real)
    requires Defined(Da, t)
    ensures t == 1.0 ==> p == 1.0 - Coverage(Da, t)
  {
    if t == 1.0 then 1.0 - Da / (1.0 + Da)
    else
      var x := Decay(Da, t);
      (1.0 - t) * x / (1.0 - t * x)
  }

  /** The general formula is 0/0 at t = 1, because exp(0) = 1: this is the
      removable singularity the t == 1 branch handles. */
  lemma SingularAtUnitTime(Da: real)
    requires Laws()
    ensures SharedDenominator(Da, 1.0) == 0.0
  {
    assert -Da * (1.0 - 1.0) == 0.0;
    assert Decay(Da, 1.0) == 1.0;
  }

  /** At t = 1 coverage and precursor sum to 1. */
  lemma SumAtUnitTime(Da: real)
    requires 1.0 + Da != 0.0
    ensures Coverage(Da, 1.0) + Precursor(Da, 1.0) == 1.0
  {
  }

  lemma {:induction false} SumOfFractions(u: real, x: real, d: real)
    requires d != 0.0
    ensures (1.0 - u / d) + u * x / d == 1.0 - u * (1.0 - x) / d
  {
    assert u * (1.0 - x) == u - u * x;
    assert u / d - u * x / d == (u - u * x) / d;
  }

  /** Away from t = 1 the two no longer sum to 1: they miss it by
      (1-t)(1-x)/d, with x = exp(-Da(1-t)) and d the shared denominator. */
  lemma {:induction false} SumOffUnitTime(Da: real, t: real)
    requires t != 1.0 && Defined(Da, t)
    ensures Coverage(Da, t) + Precursor(Da, t)
            == 1.0 - (1.0 - t) * (1.0 - Decay(Da, t)) / SharedDenominator(Da, t)
  {
    var u, x, d := 1.0 - t, Decay(Da, t), SharedDenominator(Da, t);
    assert Precursor(Da, t) == u * x / d;
    SumOfFractions(u, x, d);
    assert u * (1.0 - x) == (1.0 - t) * (1.0 - Decay(Da, t));
  }

  /** At t = 0 no coverage has formed and the precursor fraction is
      exp(-Da), whatever exp is. */
  lemma StartsUncoated(Da: real)
    ensures Defined(Da, 0.0)
    ensures Coverage(Da, 0.0) == 0.0 && Precursor(Da, 0.0) == Exp(-Da)
  {
    assert -Da * (1.0 - 0.0) == -Da;
    assert Decay(Da, 0.0) == Exp(-Da);
  }

  predicate DefinedOnGrid(Da: real, t: seq<real>)
  {
    forall i :: 0 <= i < |t| ==> Defined(Da, t[i])
  }

  /** run: the residence-time grid, and coverage and precursor at each of its
      values, all of one length. */
  predicate SpatialRunSpec(Da: real, tmax: real, dt: real, r: Profile)
    requires dt > 0.0
  {
    && r.t == Arange(tmax, dt) && |r.cov| == |r.t| && |r.x| == |r.t|
    && forall i :: 0 <= i < |r.t| ==>
         Defined(Da, r.t[i]) && r.cov[i] == Coverage(Da, r.t[i]) && r.x[i] == Precursor(Da, r.t[i])
  }

  /** Model of class PlugFlowSpatial; `Da` is overwritten by calc_coverage. */
  class PlugFlowSpatial {
    var Da: real

    constructor (Da: real)
      ensures this.Da == Da
    {
      this.Da := Da;
    }

    /** calc_coverage(Da=None, t=1): a given Da replaces the stored one. */
    method CalcCoverage(Da: Option<real> := None, t: real := 1.0) returns (c: real)
      modifies this
      requires Defined(if Da.Some? then Da.value else this.Da, t)
      ensures this.Da == (if Da.Some? then Da.value else old(this.Da))
      ensures c == Coverage(this.Da, t)
    {
      if Da.Some? {
        this.Da := Da.value;
      }
      c := Coverage(this.Da, t);
    }

    function Run(tmax: real := 5.0, dt: real := 0.01): (r: Profile)
      reads this
      requires dt > 0.0 && DefinedOnGrid(Da, Arange(tmax, dt))
      ensures SpatialRunSpec(Da, tmax, dt, r)
    {
      var t := Arange(tmax, dt);
      var da := Da;
      Profile(t, seq(|t|, i requires 0 <= i < |t| => Coverage(da, t[i])),
                 seq(|t|, i requires 0 <= i < |t| => Precursor(da, t[i])))
    }

    /** The grid and coverage arrays of `run`. */
    function SaturationCurve(tmax: real := 5.0, dt: real := 0.01): (r: Curve)
      reads this
      requires dt > 0.0 && DefinedOnGrid(Da, Arange(tmax, dt))
      ensures r.t == Run(tmax, dt).t && r.cov == Run(tmax, dt).cov
    {
      var t := Arange(tmax, dt);
      var da := Da;
      Curve(t, seq(|t|, i requires 0 <= i < |t| => Coverage(da, t[i])))
    }
  }

  /** Module-level saturation_curve(Da, tmax, dt): a fresh PlugFlowSpatial's
      curve. */
  method SaturationCurve(Da: real, tmax: real := 5.0, dt: real := 0.01) returns (r: Curve)
    requires dt > 0.0 && DefinedOnGrid(Da, Arange(tmax, dt))
    ensures r.t == Arange(tmax, dt) && |r.cov| == |r.t|
    ensures forall i :: 0 <= i < |r.t| ==> r.cov[i] == Coverage(Da, r.t[i])
  {
    var m := new PlugFlowSpatial(Da);
    r := m.SaturationCurve(tmax, dt);
  }
}
