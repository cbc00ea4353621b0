/** Batch well-stirred model (src/aldsim/core/ideal/batch/wellstirred.py).
    Its calc_coverage repeats the bounded Newton iteration inline, with the
    same statements as boundedNewton_solver; the model therefore runs the one
    iteration of the Solvers module on the same residual and derivative. That
    the two loops are the same algorithm is read off their text, not proved. */
module BatchWellStirred {
  import opened Common
  import opened Solvers
  import opened ParticleBatchWellMixed

  class WellStirred {
    const Da: real

    constructor (Da: real)
      ensures this.Da == Da
    {
      this.Da := Da;
    }

    /** Inline damped Newton on `_f_t`/`_fp_t`, written as boundedNewton_solver
        is: modelled by that iteration, so a converged coverage lies in
        [0, 1]. */
    method CalcCoverage(tau: real, fuel: nat) returns (r: Outcome)
      ensures r == Solve(Residual(Da, tau), Slope(Da), fuel)
      ensures r.Converged? ==> 0.0 <= r.root <= 1.0
    {
      r := BoundedNewton(Residual(Da, tau), Slope(Da), fuel);
    }

    /** _f(t, y) = -y/(1/Da + y). */
    function Rate(y: real): (r: real)
      requires Da != 0.0 && 1.0 / Da + y != 0.0
      ensures Denominator(Da, y) != 0.0 && r == StirredRate(Da, y)
    {
      InverseFormIsStirredRate(Da, y);
      -y / (1.0 / Da + y)
    }

    function Run(ys: seq<real>, tmax: real := 5.0, dt: real := 0.01): (r: Profile)
      requires dt > 0.0 && |ys| == |Arange(tmax, dt)| && UtilisationDefined(Da, ys)
      ensures StirredRunSpec(Da, tmax, dt, ys, r)
    {
      StirredRun(Da, tmax, dt, ys)
    }

    /** Drops only the utilisation array of `run`. */
    function SaturationCurve(ys: seq<real>, tmax: real := 5.0, dt: real := 0.01): (r: Curve)
      requires dt > 0.0 && |ys| == |Arange(tmax, dt)| && UtilisationDefined(Da, ys)
      ensures r.t == Run(ys, tmax, dt).t && r.cov == Run(ys, tmax, dt).cov
    {
      var p := Run(ys, tmax, dt);
      Curve(p.t, p.cov)
    }

    function SaturationCurveImplicit(thetaMax: real := 0.9999): (r: Curve)
      requires Da != 0.0
      ensures ImplicitCurveSpec(Da, thetaMax, r)
    {
      ImplicitCurve(Da, thetaMax)
    }

    function FractionOut(thetaMax: real := 0.999): (r: (seq<real>, seq<real>))
      requires Da != 0.0 && UtilisationDefined(Da, Complement(Arange(thetaMax, ThetaStep)))
      ensures FractionOutSpec(Da, thetaMax, r.0, r.1)
    {
      OutletFraction(Da, thetaMax)
    }
  }
}
