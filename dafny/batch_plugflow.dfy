/** Batch particle coating with plug-flow precursor transport
    (src/aldsim/core/ideal/batch/plugflow.py): the closed-form solution. */
module BatchPlugFlow {
  import opened Common

  /** Unreacted fraction `1/Da * log(1 + (exp(Da)-1) exp(-Da t))` at
      normalised time t. */
  function Depletion(Da: real, t: real): (y: real)
    requires Da != 0.0
    ensures Da * y == Log(1.0 + (Exp(Da) - 1.0) * Exp(-Da * t))
  {
    1.0 / Da * Log(1.0 + (Exp(Da) - 1.0) * Exp(-Da * t))
  }

  /** Module-level calc_coverage(Da, t): the covered fraction is what is not
      depleted. */
  function Coverage(Da: real, t: real): (c: real)
    requires Da != 0.0
    ensures c + Depletion(Da, t) == 1.0
  {
    1.0 - 1.0 / Da * Log(1.0 + (Exp(Da) - 1.0) * Exp(-Da * t))
  }

  /** At t = 0 the surface is bare: exp(0) = 1 and log(exp(Da)) = Da. */
  lemma CoverageStartsAtZero(Da: real)
    requires Laws() && Da != 0.0
    ensures Depletion(Da, 0.0) == 1.0 && Coverage(Da, 0.0) == 0.0
  {
    assert -Da * 0.0 == 0.0;
    assert 1.0 + (Exp(Da) - 1.0) * Exp(-Da * 0.0) == Exp(Da);
  }

  /** Precursor utilisation `exp(-Da y)` at unreacted fraction y. */
  function PlugUtilisation(Da: real, y: real): real
  {
    Exp(-Da * y)
  }

  /** saturation_curve: the grid `np.arange(0, tmax, dt)` and the coverage at
      each of its times. */
  predicate PlugCurveSpec(Da: real, tmax: real, dt: real, r: Curve)
    requires Da != 0.0 && dt > 0.0
  {
    && r.t == Arange(tmax, dt) && |r.cov| == |r.t|
    && forall i :: 0 <= i < |r.t| ==> r.cov[i] == Coverage(Da, r.t[i])
  }

  function PlugCurve(Da: real, tmax: real, dt: real): (r: Curve)
    requires Da != 0.0 && dt > 0.0
    ensures PlugCurveSpec(Da, tmax, dt, r)
  {
    var t := Arange(tmax, dt);
    Curve(t, seq(|t|, i requires 0 <= i < |t| => Coverage(Da, t[i])))
  }

  /** run: on the same grid, coverage 1 - y and utilisation exp(-Da y), with
      y the depletion. */
  predicate PlugRunSpec(Da: real, tmax: real, dt: real, r: Profile)
    requires Da != 0.0 && dt > 0.0
  {
    && r.t == Arange(tmax, dt) && |r.cov| == |r.t| && |r.x| == |r.t|
    && forall i :: 0 <= i < |r.t| ==>
         r.cov[i] == 1.0 - Depletion(Da, r.t[i]) && r.x[i] == PlugUtilisation(Da, Depletion(Da, r.t[i]))
  }

  function PlugRun(Da: real, tmax: real, dt: real): (r: Profile)
    requires Da != 0.0 && dt > 0.0
    ensures PlugRunSpec(Da, tmax, dt, r)
  {
    var t := Arange(tmax, dt);
    var y := seq(|t|, i requires 0 <= i < |t| => Depletion(Da, t[i]));
    Profile(t, seq(|t|, i requires 0 <= i < |t| => 1.0 - y[i]),
            seq(|t|, i requires 0 <= i < |t| => PlugUtilisation(Da, y[i])))
  }

  /** The coverage of `run` is the saturation curve: both are calc_coverage
      on the same grid. */
  lemma {:induction false} RunCoverageIsCurve(Da: real, tmax: real, dt: real, run: Profile, curve: Curve)
    requires Da != 0.0 && dt > 0.0
    requires PlugRunSpec(Da, tmax, dt, run) && PlugCurveSpec(Da, tmax, dt, curve)
    ensures run.t == curve.t && run.cov == curve.cov
  {
    forall i | 0 <= i < |run.t|
      ensures run.cov[i] == curve.cov[i]
    {
      var c := Coverage(Da, run.t[i]);
    }
  }

  /** The first row of `run` is the unreacted state: coverage 0 and
      utilisation exp(-Da). */
  lemma RunStartsUnreacted(Da: real, tmax: real, dt: real, r: Profile)
    requires Laws() && Da != 0.0 && dt > 0.0 && tmax > 0.0 && PlugRunSpec(Da, tmax, dt, r)
    ensures r.t[0] == 0.0 && r.cov[0] == 0.0 && r.x[0] == Exp(-Da)
  {
    ArangeComplete(tmax, dt, 0);
    CoverageStartsAtZero(Da);
  }

  /** Model of class PlugFlowMixed; `Da` is overwritten by calc_coverage. */
  class PlugFlowMixed {
    var Da: real

    constructor (Da: real)
      ensures this.Da == Da
    {
      this.Da := Da;
    }

    /** calc_coverage(t=1, Da=None): a given Da replaces the stored one. */
    method CalcCoverage(t: real := 1.0, Da: Option<real> := None) returns (c: real)
      modifies this
      requires (if Da.Some? then Da.value else this.Da) != 0.0
      ensures this.Da == (if Da.Some? then Da.value else old(this.Da))
      ensures c + Depletion(this.Da, t) == 1.0
    {
      if Da.Some? {
        this.Da := Da.value;
      }
      c := Coverage(this.Da, t);
    }

    function SaturationCurve(tmax: real := 5.0, dt: real := 0.01): (r: Curve)
      reads this
      requires Da != 0.0 && dt > 0.0
      ensures PlugCurveSpec(Da, tmax, dt, r)
    {
      PlugCurve(Da, tmax, dt)
    }

    function Run(tmax: real := 5.0, dt: real := 0.01): (r: Profile)
      reads this
      requires Da != 0.0 && dt > 0.0
      ensures PlugRunSpec(Da, tmax, dt, r)
    {
      PlugRun(Da, tmax, dt)
    }
  }
}
