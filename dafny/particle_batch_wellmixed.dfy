/** Batch particle coating, well-mixed particles and well-stirred precursor
    transport (src/aldsim/core/ideal/particle/batch/wellmixed.py).

    This module also holds the pieces the other well-stirred models share:
    the implicit coverage equation solved by Newton's method, and the
    post-processing of the ODE trajectory y (unreacted fraction, y(0) = 1). */
module ParticleBatchWellMixed {
  import opened Common
  import opened Solvers

  /** `theta - log(1-theta)/Da - tau`: its root is the coverage at normalised
      dose time tau. */
  function ResidualAt(Da: real, tau: real, theta: real): real
    requires Da != 0.0
  {
    theta - Log(1.0 - theta) / Da - tau
  }

  /** `1 + 1/(Da*(1-theta))`, the derivative of ResidualAt in theta. */
  function SlopeAt(Da: real, theta: real): (s: real)
    requires Da * (1.0 - theta) != 0.0
    ensures Da > 0.0 && theta < 1.0 ==> s > 1.0
  {
    1.0 + 1.0 / (Da * (1.0 - theta))
  }

  /** The residual vanishes at theta exactly when tau is the time at which
      coverage theta is reached. */
  lemma {:induction false} ResidualVanishesExactlyAtImplicitTime(Da: real, tau: real, theta: real)
    requires Da != 0.0
    ensures ResidualAt(Da, tau, theta) == 0.0 <==> tau == ImplicitTime(Da, theta)
  {
    assert ResidualAt(Da, tau, theta) == ImplicitTime(Da, theta) - tau;
  }

  /** The residual as a solver callback: None at every iterate when Da = 0
      (the division by Da), the residual otherwise. */
  function Residual(Da: real, tau: real): (r: Callback)
    ensures forall theta :: r(theta).None? <==> Da == 0.0
    ensures Da != 0.0 ==> forall theta :: r(theta) == Some(ResidualAt(Da, tau, theta))
  {
    theta => if Da == 0.0 then None else Some(ResidualAt(Da, tau, theta))
  }

  /** The derivative as a solver callback: None exactly where Da*(1-theta)
      is zero, the derivative elsewhere. */
  function Slope(Da: real): (r: Callback)
    ensures forall theta :: r(theta).None? <==> Da * (1.0 - theta) == 0.0
    ensures forall theta :: Da * (1.0 - theta) != 0.0 ==> r(theta) == Some(SlopeAt(Da, theta))
  {
    theta => if Da * (1.0 - theta) == 0.0 then None else Some(SlopeAt(Da, theta))
  }

  /** For Da > 0, the derivative is defined and above 1 at every iterate below
      1, so the Newton step never divides by zero there. */
  lemma SlopeDefinedBelowOne(Da: real, theta: real)
    requires Da > 0.0 && theta < 1.0
    ensures Slope(Da)(theta).Some? && Slope(Da)(theta).value > 1.0
  {
    assert Da * (1.0 - theta) > 0.0;
  }

  /** Module-level calc_coverage(Da, tau): boundedNewton_solver on the
      residual, with a result in [0, 1]. */
  method SolveCoverage(Da: real, tau: real, fuel: nat) returns (r: Outcome)
    ensures r == Solve(Residual(Da, tau), Slope(Da), fuel)
    ensures r.Converged? ==> 0.0 <= r.root <= 1.0
  {
    r := BoundedNewton(Residual(Da, tau), Slope(Da), fuel);
  }

  /** Normalised dose time at which coverage theta is reached:
      `theta - log(1-theta)/Da`. */
  function ImplicitTime(Da: real, theta: real): (tau: real)
    requires Da != 0.0
    ensures ResidualAt(Da, tau, theta) == 0.0
  {
    theta - Log(1.0 - theta) / Da
  }

  /** `1 + Da*y`, the denominator of the well-stirred rate and utilisation. */
  function Denominator(Da: real, y: real): real
  {
    1.0 + Da * y
  }

  /** `-Da*y/(1+Da*y)`: right-hand side of the well-stirred ODE for the
      unreacted fraction y. */
  function StirredRate(Da: real, y: real): (r: real)
    requires Denominator(Da, y) != 0.0
    ensures r == -(Da * y) * Utilisation(Da, y)
  {
    -Da * y / (1.0 + Da * y)
  }

  /** `-y/(1/Da+y)`, the form WellMixed._f uses, is the same rate. */
  lemma InverseFormIsStirredRate(Da: real, y: real)
    requires Da != 0.0 && 1.0 / Da + y != 0.0
    ensures 1.0 + Da * y != 0.0 && -y / (1.0 / Da + y) == StirredRate(Da, y)
  {
    var d := 1.0 / Da + y;
    assert Da * d == 1.0 + Da * y;
    assert -y / d == (Da * -y) / (Da * d);
  }

  /** Precursor utilisation `1/(1+Da*y)` at unreacted fraction y. */
  function Utilisation(Da: real, y: real): (x: real)
    requires Denominator(Da, y) != 0.0
    ensures x * (1.0 + Da * y) == 1.0
  {
    1.0 / (1.0 + Da * y)
  }

  predicate UtilisationDefined(Da: real, ys: seq<real>)
  {
    forall i :: 0 <= i < |ys| ==> Denominator(Da, ys[i]) != 0.0
  }

  /** What `run` of a well-stirred model returns for the trajectory ys that
      the ODE solver produced on the grid `np.arange(0, tmax, dt)`: the grid,
      coverage 1 - y_i and utilisation 1/(1 + Da*y_i), all of one length. */
  predicate StirredRunSpec(Da: real, tmax: real, dt: real, ys: seq<real>, r: Profile)
    requires dt > 0.0
  {
    && r.t == Arange(tmax, dt)
    && |ys| == |r.t| && |r.cov| == |r.t| && |r.x| == |r.t|
    && forall i :: 0 <= i < |ys| ==>
         r.cov[i] == 1.0 - ys[i] && Denominator(Da, ys[i]) != 0.0 && r.x[i] == Utilisation(Da, ys[i])
  }

  function StirredRun(Da: real, tmax: real, dt: real, ys: seq<real>): (r: Profile)
    requires dt > 0.0 && |ys| == |Arange(tmax, dt)| && UtilisationDefined(Da, ys)
    ensures StirredRunSpec(Da, tmax, dt, ys, r)
  {
    Profile(Arange(tmax, dt), Complement(ys),
            seq(|ys|, i requires 0 <= i < |ys| => Utilisation(Da, ys[i])))
  }

  /** At the initial state y_0 = 1 the run reports no coverage and
      utilisation 1/(1 + Da). */
  lemma StirredRunStartsUnreacted(Da: real, tmax: real, dt: real, ys: seq<real>, r: Profile)
    requires dt > 0.0 && tmax > 0.0 && StirredRunSpec(Da, tmax, dt, ys, r) && ys[0] == 1.0
    ensures r.t[0] == 0.0 && r.cov[0] == 0.0 && r.x[0] == 1.0 / (1.0 + Da)
  {
    ArangeComplete(tmax, dt, 0);
  }

  const ThetaStep: real := 0.0001

  /** What saturation_curve_implicit returns: the coverage grid
      `np.arange(0, theta_max, 0.0001)` and the time each value is reached. */
  predicate ImplicitCurveSpec(Da: real, thetaMax: real, r: Curve)
    requires Da != 0.0
  {
    && r.cov == Arange(thetaMax, ThetaStep) && |r.t| == |r.cov|
    && forall i :: 0 <= i < |r.cov| ==> r.t[i] == ImplicitTime(Da, r.cov[i])
  }

  function ImplicitCurve(Da: real, thetaMax: real): (r: Curve)
    requires Da != 0.0
    ensures ImplicitCurveSpec(Da, thetaMax, r)
  {
    var theta := Arange(thetaMax, ThetaStep);
    Curve(seq(|theta|, i requires 0 <= i < |theta| => ImplicitTime(Da, theta[i])), theta)
  }

  /** The implicit curve starts at the origin, because log(1) = 0. */
  lemma ImplicitCurveStartsAtOrigin(Da: real, thetaMax: real, r: Curve)
    requires Laws() && Da != 0.0 && thetaMax > 0.0 && ImplicitCurveSpec(Da, thetaMax, r)
    ensures r.t[0] == 0.0 && r.cov[0] == 0.0
  {
    ArangeComplete(thetaMax, ThetaStep, 0);
  }

  /** What fraction_out returns: on the same coverage grid, the time
      `tau(theta)` and the outlet fraction `1/(1+Da*(1-theta))`. */
  predicate FractionOutSpec(Da: real, thetaMax: real, tau: seq<real>, x: seq<real>)
    requires Da != 0.0
  {
    var theta := Arange(thetaMax, ThetaStep);
    && |tau| == |theta| && |x| == |theta|
    && forall i :: 0 <= i < |theta| ==>
         tau[i] == ImplicitTime(Da, theta[i]) && Denominator(Da, 1.0 - theta[i]) != 0.0
         && x[i] == Utilisation(Da, 1.0 - theta[i])
  }

  function OutletFraction(Da: real, thetaMax: real): (r: (seq<real>, seq<real>))
    requires Da != 0.0 && UtilisationDefined(Da, Complement(Arange(thetaMax, ThetaStep)))
    ensures FractionOutSpec(Da, thetaMax, r.0, r.1)
  {
    var theta := Arange(thetaMax, ThetaStep);
    var c := Complement(theta);
    (seq(|theta|, i requires 0 <= i < |theta| => ImplicitTime(Da, theta[i])),
     seq(|theta|, i requires 0 <= i < |theta| => Utilisation(Da, c[i])))
  }

  /** fraction_out at coverage theta_i gives the utilisation that run reports
      for a trajectory value y_j = 1 - theta_i. */
  lemma FractionOutMatchesRun(Da: real, thetaMax: real, tau: seq<real>, x: seq<real>,
                              tmax: real, dt: real, ys: seq<real>, run: Profile, i: nat, j: nat)
    requires Da != 0.0 && dt > 0.0
    requires FractionOutSpec(Da, thetaMax, tau, x) && StirredRunSpec(Da, tmax, dt, ys, run)
    requires i < |x| && j < |ys| && ys[j] == 1.0 - Arange(thetaMax, ThetaStep)[i]
    ensures x[i] == run.x[j]
  {
  }

  /** Model of class WellMixed; `Da` is overwritten by calc_coverage. */
  class WellMixed {
    var Da: real

    constructor (Da: real)
      ensures this.Da == Da
    {
      this.Da := Da;
    }

    /** calc_coverage(Da=None, t=1): a given Da replaces the stored one for
        this and every later call. */
    method CalcCoverage(Da: Option<real> := None, t: real := 1.0, fuel: nat := 1000) returns (r: Outcome)
      modifies this
      ensures this.Da == (if Da.Some? then Da.value else old(this.Da))
      ensures r == Solve(Residual(this.Da, t), Slope(this.Da), fuel)
      ensures r.Converged? ==> 0.0 <= r.root <= 1.0
    {
      if Da.Some? {
        this.Da := Da.value;
      }
      r := SolveCoverage(this.Da, t, fuel);
    }

    /** _f(t, y) = -y/(1/Da + y), the ODE right-hand side. */
    function Rate(y: real): (r: real)
      reads this
      requires Da != 0.0 && 1.0 / Da + y != 0.0
      ensures 1.0 + Da * y != 0.0 && r == StirredRate(Da, y)
    {
      InverseFormIsStirredRate(Da, y);
      -y / (1.0 / Da + y)
    }

    function Run(ys: seq<real>, tmax: real := 5.0, dt: real := 0.01): (r: Profile)
      reads this
      requires dt > 0.0 && |ys| == |Arange(tmax, dt)| && UtilisationDefined(Da, ys)
      ensures StirredRunSpec(Da, tmax, dt, ys, r)
    {
      StirredRun(Da, tmax, dt, ys)
    }

    function SaturationCurve(ys: seq<real>, tmax: real := 5.0, dt: real := 0.01): (r: Curve)
      reads this
      requires dt > 0.0 && |ys| == |Arange(tmax, dt)| && UtilisationDefined(Da, ys)
      ensures r.t == Run(ys, tmax, dt).t && r.cov == Run(ys, tmax, dt).cov
    {
      var p := Run(ys, tmax, dt);
      Curve(p.t, p.cov)
    }

    function SaturationCurveImplicit(thetaMax: real := 0.9999): (r: Curve)
      reads this
      requires Da != 0.0
      ensures ImplicitCurveSpec(Da, thetaMax, r)
    {
      ImplicitCurve(Da, thetaMax)
    }

    function FractionOut(thetaMax: real := 0.999): (r: (seq<real>, seq<real>))
      reads this
      requires Da != 0.0 && UtilisationDefined(Da, Complement(Arange(thetaMax, ThetaStep)))
      ensures FractionOutSpec(Da, thetaMax, r.0, r.1)
    {
      OutletFraction(Da, thetaMax)
    }
  }

  /** Module-level saturation_curve(Da, tmax, dt): a fresh WellMixed's
      curve for the trajectory ys. */
  method SaturationCurve(Da: real, ys: seq<real>, tmax: real := 5.0, dt: real := 0.01) returns (r: Curve)
    requires dt > 0.0 && |ys| == |Arange(tmax, dt)| && UtilisationDefined(Da, ys)
    ensures r.t == Arange(tmax, dt) && r.cov == Complement(ys)
  {
    var m := new WellMixed(Da);
    r := m.SaturationCurve(ys, tmax, dt);
  }

  /** Coverage grid step of saturation_curve_double. */
  const DoubleThetaStep: real := 0.00001

  /** One point of saturation_curve_double at second-pathway coverage
      theta2: the first pathway's available fraction is x1 = (1-theta2)^(1/alpha),
      and the result is (tau, f1*theta1 + f2*theta2). */
  function DoublePoint(Da1: real, alpha: real, f1: real, f2: real, theta2: real): (real, real)
    requires Da1 != 0.0 && alpha != 0.0
  {
    var x1 := Pow(1.0 - theta2, 1.0 / alpha);
    var theta1 := 1.0 - x1;
    (-Log(x1) / Da1 + f1 * theta1 + f2 * (1.0 - Pow(x1, alpha)), f1 * theta1 + f2 * theta2)
  }

  /** saturation_curve_double(Da1, Da2, f1, f2, theta_max): the curve of a
      two-pathway well-mixed model, parameterised by the grid of theta2. */
  function SaturationCurveDouble(Da1: real, Da2: real, f1: real, f2: real, thetaMax: real := 0.99999): (r: Curve)
    requires Da1 != 0.0 && Da2 != 0.0
    ensures |r.t| == |Arange(thetaMax, DoubleThetaStep)| && |r.cov| == |r.t|
    ensures forall i :: 0 <= i < |r.t| ==>
              (r.t[i], r.cov[i]) == DoublePoint(Da1, Da2 / Da1, f1, f2, Arange(thetaMax, DoubleThetaStep)[i])
  {
    var alpha := Da2 / Da1;
    var theta2 := Arange(thetaMax, DoubleThetaStep);
    var pts := seq(|theta2|, i requires 0 <= i < |theta2| => DoublePoint(Da1, alpha, f1, f2, theta2[i]));
    Curve(seq(|pts|, i requires 0 <= i < |pts| => pts[i].0), seq(|pts|, i requires 0 <= i < |pts| => pts[i].1))
  }

  /** The two-pathway curve starts at the origin: at theta2 = 0 both
      pathways are bare, since 1^a = 1 and log(1) = 0. */
  lemma SaturationCurveDoubleStartsAtOrigin(Da1: real, Da2: real, f1: real, f2: real, thetaMax: real)
    requires Laws() && Da1 != 0.0 && Da2 != 0.0 && thetaMax > 0.0
    ensures SaturationCurveDouble(Da1, Da2, f1, f2, thetaMax).t[0] == 0.0
    ensures SaturationCurveDouble(Da1, Da2, f1, f2, thetaMax).cov[0] == 0.0
  {
    ArangeComplete(thetaMax, DoubleThetaStep, 0);
    var alpha := Da2 / Da1;
    assert alpha != 0.0;
    assert Pow(1.0, 1.0 / alpha) == 1.0;
    assert Pow(1.0, alpha) == 1.0;
    assert DoublePoint(Da1, alpha, f1, f2, 0.0) == (0.0, 0.0);
  }
}
