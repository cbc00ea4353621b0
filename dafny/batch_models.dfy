/** The batch models collected in src/aldsim/models/batch.py. */
module BatchModels {
  import opened Common
  import opened Solvers
  import opened ParticleBatchWellMixed
  import opened BatchPlugFlow
  import opened SoftBatch

  /** Well-stirred batch model, with the Newton iteration written inline. */
  class WellStirred {
    const Da: real

    constructor (Da: real)
      ensures this.Da == Da
    {
      this.Da := Da;
    }

    /** Inline damped Newton on `_f_t`/`_fp_t`, written as boundedNewton_solver
        is: modelled by that iteration, in [0, 1] when it converges. */
    method CalcCoverage(tau: real, fuel: nat) returns (r: Outcome)
      ensures r == Solve(Residual(Da, tau), Slope(Da), fuel)
      ensures r.Converged? ==> 0.0 <= r.root <= 1.0
    {
      r := BoundedNewton(Residual(Da, tau), Slope(Da), fuel);
    }

    /** _f(t, y) = -Da*y/(1 + Da*y): for Da != 0 the same rate as the
        `-y/(1/Da + y)` form of the other well-stirred classes. */
    function Rate(y: real): (r: real)
      requires Denominator(Da, y) != 0.0
      ensures Da != 0.0 ==> 1.0 / Da + y != 0.0 && r == -y / (1.0 / Da + y)
    {
      if Da != 0.0 then
        assert (1.0 / Da + y) * Da == Denominator(Da, y);
        InverseFormIsStirredRate(Da, y);
        StirredRate(Da, y)
      else StirredRate(Da, y)
    }

    function Run(ys: seq<real>, tmax: real := 5.0, dt: real := 0.01): (r: Profile)
      requires dt > 0.0 && |ys| == |Arange(tmax, dt)| && UtilisationDefined(Da, ys)
      ensures StirredRunSpec(Da, tmax, dt, ys, r)
    {
      StirredRun(Da, tmax, dt, ys)
    }

    /** Drops only the utilisation array of `run`. */
    function SaturationCurve(ys: seq<real>, tmax: real := 5.0, dt: real := 0.01): (r: Curve)
      requires dt > 0.0 && |ys| == |Arange(tmax, dt)| && UtilisationDefined(Da, ys)
      ensures r.t == Run(ys, tmax, dt).t && r.cov == Run(ys, tmax, dt).cov
    {
      var p := Run(ys, tmax, dt);
      Curve(p.t, p.cov)
    }

    function SaturationCurveImplicit(thetaMax: real := 0.9999): (r: Curve)
      requires Da != 0.0
      ensures ImplicitCurveSpec(Da, thetaMax, r)
    {
      ImplicitCurve(Da, thetaMax)
    }

    function FractionOut(thetaMax: real := 0.999): (r: (seq<real>, seq<real>))
      requires Da != 0.0 && UtilisationDefined(Da, Complement(Arange(thetaMax, ThetaStep)))
      ensures FractionOutSpec(Da, thetaMax, r.0, r.1)
    {
      OutletFraction(Da, thetaMax)
    }
  }

  /** Plug-flow batch model in closed form; Da is set once. */
  class PlugFlowMixed {
    const Da: real

    constructor (Da: real)
      ensures this.Da == Da
    {
      this.Da := Da;
    }

    function CalcCoverage(t: real): (c: real)
      requires Da != 0.0
      ensures c + Depletion(Da, t) == 1.0
    {
      Coverage(Da, t)
    }

    /** Element i is calc_coverage(t_i) on the grid t_i = i*dt < tmax. */
    function SaturationCurve(tmax: real := 5.0, dt: real := 0.01): (r: Curve)
      requires Da != 0.0 && dt > 0.0
      ensures r.t == Arange(tmax, dt) && |r.cov| == |r.t|
      ensures forall i :: 0 <= i < |r.t| ==> r.cov[i] == CalcCoverage(r.t[i])
    {
      PlugCurve(Da, tmax, dt)
    }

    function Run(tmax: real := 5.0, dt: real := 0.01): (r: Profile)
      requires Da != 0.0 && dt > 0.0
      ensures PlugRunSpec(Da, tmax, dt, r)
    {
      PlugRun(Da, tmax, dt)
    }
  }

  /** Two-pathway plug-flow batch model; all fields are set once. */
  class PlugFlowMixedSoft {
    const D1: real
    const D2: real
    const f1: real
    const f2: real
    const a: real

    constructor (D1: real, D2: real, f1: real, f2: real)
      requires D1 != 0.0
      ensures this.D1 == D1 && this.D2 == D2 && this.f1 == f1 && this.f2 == f2
      ensures this.a * D1 == D2
    {
      this.D1 := D1;
      this.D2 := D2;
      this.f1 := f1;
      this.f2 := f2;
      this.a := D2 / D1;
    }

    /** _f(t, y): with a single pathway, -(1 - exp(-D1 y)). */
    function Rate(y: real): (r: real)
      requires Consumption(D1, D2, f1, f2, a, y) != 0.0
      ensures f1 == 1.0 && f2 == 0.0 ==> r == -(1.0 - Exp(-(D1 * y)))
    {
      if f1 == 1.0 && f2 == 0.0 then
        assert Consumption(D1, D2, f1, f2, a, y) == D1 * y;
        SinglePathwayPlugRate(D1, D2, a, y);
        PlugSoftRate(D1, D2, f1, f2, a, y)
      else PlugSoftRate(D1, D2, f1, f2, a, y)
    }

    function SaturationCurve(ys: seq<real>, tmax: real := 5.0): (r: Curve)
      requires |ys| == |Arange(tmax, SoftGridStep)|
      ensures SoftCurveSpec(f1, f2, a, tmax, ys, r)
    {
      SoftCurve(f1, f2, a, tmax, ys)
    }

    function Run(tmax: real, dt: real): (r: Result<Profile>)
      ensures r == Err(NotImplementedError)
    {
      Err(NotImplementedError)
    }

    function CalcCoverage(t: real): (r: Result<real>)
      ensures r == Err(NotImplementedError)
    {
      Err(NotImplementedError)
    }
  }
}
