/** Dimensional batch dose models (src/aldsim/models/dose/batch.py): a
    nondimensional model converted to physical units by a flow, a Damkohler
    number and a time scale t0. */
module DoseBatch {
  import opened Common
  import opened Constants
  import opened Solvers
  import opened ParticleBatchWellMixed
  import opened BatchPlugFlow
  import opened Chem
  import opened DoseIdealBase

  /** Nondimensional well-stirred model; its Da is overwritten by the dose
      model before every query. */
  class WellStirredND {
    var Da: real

    constructor (Da: real)
      ensures this.Da == Da
    {
      this.Da := Da;
    }

    /** Inline damped Newton on `_f_t`/`_fp_t`, written as boundedNewton_solver
        is: modelled by that iteration, in [0, 1] when it converges. */
    method CalcCoverage(tau: real, fuel: nat) returns (r: Outcome)
      ensures r == Solve(Residual(Da, tau), Slope(Da), fuel)
      ensures r.Converged? ==> 0.0 <= r.root <= 1.0
    {
      r := BoundedNewton(Residual(Da, tau), Slope(Da), fuel);
    }

    /** _f(t, y) = -y/(1/Da + y). */
    function Rate(y: real): (r: real)
      reads this
      requires Da != 0.0 && 1.0 / Da + y != 0.0
      ensures Denominator(Da, y) != 0.0 && r == StirredRate(Da, y)
    {
      InverseFormIsStirredRate(Da, y);
      -y / (1.0 / Da + y)
    }

    function Run(ys: seq<real>, tmax: real := 5.0, dt: real := 0.01): (r: Profile)
      reads this
      requires dt > 0.0 && |ys| == |Arange(tmax, dt)| && UtilisationDefined(Da, ys)
      ensures StirredRunSpec(Da, tmax, dt, ys, r)
    {
      StirredRun(Da, tmax, dt, ys)
    }

    /** Drops only the utilisation array of `run`. */
    function SaturationCurve(ys: seq<real>, tmax: real := 5.0, dt: real := 0.01): (r: Curve)
      reads this
      requires dt > 0.0 && |ys| == |Arange(tmax, dt)| && UtilisationDefined(Da, ys)
      ensures r.t == Run(ys, tmax, dt).t && r.cov == Run(ys, tmax, dt).cov
    {
      var p := Run(ys, tmax, dt);
      Curve(p.t, p.cov)
    }

    function SaturationCurveImplicit(thetaMax: real := 0.9999): (r: Curve)
      reads this
      requires Da != 0.0
      ensures ImplicitCurveSpec(Da, thetaMax, r)
    {
      ImplicitCurve(Da, thetaMax)
    }

    function FractionOut(thetaMax: real := 0.999): (r: (seq<real>, seq<real>))
      reads this
      requires Da != 0.0 && UtilisationDefined(Da, Complement(Arange(thetaMax, ThetaStep)))
      ensures FractionOutSpec(Da, thetaMax, r.0, r.1)
    {
      OutletFraction(Da, thetaMax)
    }
  }

  /** Nondimensional plug-flow model in closed form; its Da is overwritten by
      the dose model before every query. */
  class PlugFlowMixedND {
    var Da: real

    constructor (Da: real)
      ensures this.Da == Da
    {
      this.Da := Da;
    }

    function CalcCoverage(t: real): (c: real)
      reads this
      requires Da != 0.0
      ensures c + Depletion(Da, t) == 1.0
    {
      Coverage(Da, t)
    }

    /** Element i is calc_coverage(t_i) on the grid t_i = i*dt < tmax. */
    function SaturationCurve(tmax: real := 5.0, dt: real := 0.01): (r: Curve)
      reads this
      requires Da != 0.0 && dt > 0.0
      ensures r.t == Arange(tmax, dt) && |r.cov| == |r.t|
      ensures forall i :: 0 <= i < |r.t| ==> r.cov[i] == CalcCoverage(r.t[i])
    {
      PlugCurve(Da, tmax, dt)
    }

    /** run: coverage 1 - y with the y of calc_coverage, and utilisation
        exp(-Da y). */
    function Run(tmax: real := 5.0, dt: real := 0.01): (r: Profile)
      reads this
      requires Da != 0.0 && dt > 0.0
      ensures PlugRunSpec(Da, tmax, dt, r)
      ensures forall i :: 0 <= i < |r.t| ==> r.cov[i] == CalcCoverage(r.t[i])
    {
      PlugRun(Da, tmax, dt)
    }
  }

  /** flow(): the carrier flow flow0 (sccm) as m^3/s at pressure p0 and
      temperature T: the ideal-gas volume, inversely proportional to p0 and
      proportional to T. */
  function CarrierFlow(flow0: real, p0: real, T: real): (r: real)
    requires p0 != 0.0
    ensures r * p0 * 300.0 == (1e-6 * flow0 / 60.0) * 1e5 * T
  {
    (1e-6 * flow0 / 60.0) * 1e5 / p0 * (T / 300.0)
  }

  /** Standard cubic centimetres: whatever the state (p0, T), the flow carries
      as many molecules per second as flow0 cm^3/min do at the reference
      state of 1e5 Pa and 300 K, where the flow is flow0 converted to m^3/s. */
  lemma {:induction false} MolecularFlowIndependentOfState(flow0: real, p0: real, T: real)
    requires p0 != 0.0 && T != 0.0
    ensures CarrierFlow(flow0, p0, T) * NumberDensity(p0, T)
            == CarrierFlow(flow0, 1e5, 300.0) * NumberDensity(1e5, 300.0)
    ensures CarrierFlow(flow0, 1e5, 300.0) == flow0 * 1e-6 / 60.0
  {
    var a := (1e-6 * flow0 / 60.0) * 1e5;
    var c := CarrierFlow(flow0, p0, T);
    var n := NumberDensity(p0, T);
    var c0 := CarrierFlow(flow0, 1e5, 300.0);
    var n0 := NumberDensity(1e5, 300.0);
    assert c * p0 * 300.0 == a * T;
    assert n * (Kb * T) == p0;
    assert (c * n) * (Kb * 300.0) * T == a * T by {
      assert (c * n) * (Kb * 300.0) * T == c * (n * (Kb * T)) * 300.0;
    }
    assert (c * n) * (Kb * 300.0) == a;
    assert c0 * 1e5 * 300.0 == a * 300.0;
    assert n0 * (Kb * 300.0) == 1e5;
    assert (c0 * n0) * (Kb * 300.0) == a by {
      assert (c0 * n0) * (Kb * 300.0) == c0 * 1e5;
    }
  }

  /** At zero temperature the ideal-gas volume, and with it the flow, is
      zero. */
  lemma {:induction false} ZeroFlowAtZeroTemperature(flow0: real, p0: real)
    requires p0 != 0.0
    ensures CarrierFlow(flow0, p0, 0.0) == 0.0
  {
    var c := CarrierFlow(flow0, p0, 0.0);
    assert c * p0 * 300.0 == 0.0;
  }

  /** Da(): `0.25*S/flow*beta*vth`, surface reactions over precursor
      supply. */
  function DoseDa(S: real, flow: real, beta: real, vth: real): (r: real)
    requires flow != 0.0
    ensures r * flow == 0.25 * S * beta * vth
  {
    0.25 * S / flow * beta * vth
  }

  /** Da is the ratio of the rate at which the area S consumes precursor,
      S*Jwall*beta, to the rate flow*n at which the flow supplies it. */
  lemma {:induction false} DaIsConsumptionOverSupply(S: real, flow: real, beta: real, prec: Precursor, T: real, p: real)
    requires flow != 0.0 && prec.mass != 0.0 && T != 0.0
    ensures DoseDa(S, flow, beta, prec.Vth(T)) * (flow * NumberDensity(p, T))
            == S * prec.Jwall(T, p) * beta
  {
    var d := DoseDa(S, flow, beta, prec.Vth(T));
    var n := NumberDensity(p, T);
    var v := prec.Vth(T);
    assert d * flow == 0.25 * S * beta * v;
    assert d * (flow * n) == (d * flow) * n;
    assert prec.Jwall(T, p) == 0.25 * n * v;
  }

  /** t0(): `kb*T*S/(flow*site_area*p)`. */
  function DoseT0(T: real, S: real, flow: real, siteArea: real, p: real): (r: real)
    requires flow * siteArea * p != 0.0
    ensures r * (flow * siteArea * p) == Kb * T * S
  {
    Kb * T * S / (flow * siteArea * p)
  }

  /** t0 is the time in which the flow, carrying p/(kb T) molecules per unit
      volume, delivers one molecule per site of the S/site_area sites. */
  lemma {:induction false} T0DeliversOneMoleculePerSite(T: real, S: real, flow: real, siteArea: real, p: real)
    requires T != 0.0 && flow * siteArea * p != 0.0
    ensures DoseT0(T, S, flow, siteArea, p) * flow * (p / (Kb * T)) == S / siteArea
  {
    var n := Kb * T;
    var d := flow * siteArea * p;
    assert DoseT0(T, S, flow, siteArea, p) == n * S / d;
    assert n * S / d * flow * (p / n) == S * (flow * p) / d;
    assert S * (flow * p) / d == S / siteArea;
  }

  /** Dimensional well-stirred dose model, delegating to WellStirredND. */
  class WellStirred {
    const dose: IdealDoseModel
    const S: real
    const p0: real
    const flow0: real
    const baseModel: WellStirredND

    /** flow(): molecules per second do not depend on the state (p0, T). */
    function Flow(): (r: real)
      reads dose
      requires p0 != 0.0
      ensures dose.T != 0.0 ==>
                r * NumberDensity(p0, dose.T) == CarrierFlow(flow0, 1e5, 300.0) * NumberDensity(1e5, 300.0)
    {
      if dose.T != 0.0 then
        MolecularFlowIndependentOfState(flow0, p0, dose.T);
        CarrierFlow(flow0, p0, dose.T)
      else
        CarrierFlow(flow0, p0, dose.T)
    }

    /** Da() with beta at zero coverage: consumption on the area S over the
        supply of the flow at the dose pressure. */
    function Da(): (r: real)
      reads dose, dose.chem.base
      requires p0 != 0.0 && Flow() != 0.0
      ensures dose.T != 0.0
      ensures dose.Valid() ==>
                r * (Flow() * NumberDensity(dose.p, dose.T))
                == S * dose.chem.base.prec.Jwall(dose.T, dose.p) * dose.chem.Beta()
    {
      assert dose.T != 0.0 by { ZeroFlowAtZeroTemperature(flow0, p0); }
      if dose.Valid() then
        DaIsConsumptionOverSupply(S, Flow(), dose.chem.Beta(), dose.chem.base.prec, dose.T, dose.p);
        DoseDa(S, Flow(), dose.chem.Beta(), dose.vth)
      else
        DoseDa(S, Flow(), dose.chem.Beta(), dose.vth)
    }

    /** t0(): the time in which the flow delivers one molecule per site. */
    function T0(): (r: real)
      reads dose, dose.chem.base
      requires p0 != 0.0 && Flow() * dose.SiteArea() * dose.p != 0.0
      ensures dose.T != 0.0
      ensures r * Flow() * NumberDensity(dose.p, dose.T) == S / dose.SiteArea()
    {
      assert dose.T != 0.0 by { ZeroFlowAtZeroTemperature(flow0, p0); }
      T0DeliversOneMoleculePerSite(dose.T, S, Flow(), dose.SiteArea(), dose.p);
      DoseT0(dose.T, S, Flow(), dose.SiteArea(), dose.p)
    }

    /** Builds the base model with the Da of the initial state. */
    constructor (chem: ALDideal, p: real, p0: real, T: real, S: real, flow: real)
      requires chem.base.prec.mass != 0.0 && p0 != 0.0 && CarrierFlow(flow, p0, T) != 0.0
      ensures fresh(dose) && fresh(baseModel)
      ensures dose.chem == chem && dose.p == p && dose.T == T && dose.Valid()
      ensures this.S == S && this.p0 == p0 && flow0 == flow
      ensures baseModel.Da == Da()
    {
      var d := new IdealDoseModel(chem, p, T);
      dose := d;
      this.S := S;
      this.p0 := p0;
      flow0 := flow;
      baseModel := new WellStirredND(DoseDa(S, CarrierFlow(flow, p0, T), chem.Beta(), d.vth));
    }

    /** saturation_curve: refreshes the base model's Da, then returns its
        curve with time scaled by t0. */
    method SaturationCurve(ys: seq<real>) returns (r: Curve)
      modifies baseModel
      requires p0 != 0.0 && Flow() != 0.0 && Flow() * dose.SiteArea() * dose.p != 0.0
      requires |ys| == |Arange(5.0, 0.01)| && UtilisationDefined(Da(), ys)
      ensures baseModel.Da == Da()
      ensures r.t == Scaled(baseModel.SaturationCurve(ys).t, T0())
      ensures r.cov == baseModel.SaturationCurve(ys).cov
    {
      baseModel.Da := Da();
      var nd := baseModel.SaturationCurve(ys);
      r := Curve(Scaled(nd.t, T0()), nd.cov);
    }

    /** run: refreshes the base model's Da, then returns its run with time
        scaled by t0. */
    method Run(ys: seq<real>) returns (r: Profile)
      modifies baseModel
      requires p0 != 0.0 && Flow() != 0.0 && Flow() * dose.SiteArea() * dose.p != 0.0
      requires |ys| == |Arange(5.0, 0.01)| && UtilisationDefined(Da(), ys)
      ensures baseModel.Da == Da()
      ensures r.t == Scaled(baseModel.Run(ys).t, T0())
      ensures r.cov == baseModel.Run(ys).cov && r.x == baseModel.Run(ys).x
    {
      baseModel.Da := Da();
      var nd := baseModel.Run(ys);
      r := Profile(Scaled(nd.t, T0()), nd.cov, nd.x);
    }
  }

  /** Dimensional plug-flow dose model, delegating to PlugFlowMixedND. */
  class ParticlePlugFlow {
    const dose: IdealDoseModel
    const S: real
    const p0: real
    const flow0: real
    const baseModel: PlugFlowMixedND

    /** flow(): molecules per second do not depend on the state (p0, T). */
    function Flow(): (r: real)
      reads dose
      requires p0 != 0.0
      ensures dose.T != 0.0 ==>
                r * NumberDensity(p0, dose.T) == CarrierFlow(flow0, 1e5, 300.0) * NumberDensity(1e5, 300.0)
    {
      if dose.T != 0.0 then
        MolecularFlowIndependentOfState(flow0, p0, dose.T);
        CarrierFlow(flow0, p0, dose.T)
      else
        CarrierFlow(flow0, p0, dose.T)
    }

    /** Da() with beta at zero coverage: consumption on the area S over the
        supply of the flow at the dose pressure. */
    function Da(): (r: real)
      reads dose, dose.chem.base
      requires p0 != 0.0 && Flow() != 0.0
      ensures dose.T != 0.0
      ensures dose.Valid() ==>
                r * (Flow() * NumberDensity(dose.p, dose.T))
                == S * dose.chem.base.prec.Jwall(dose.T, dose.p) * dose.chem.Beta()
    {
      assert dose.T != 0.0 by { ZeroFlowAtZeroTemperature(flow0, p0); }
      if dose.Valid() then
        DaIsConsumptionOverSupply(S, Flow(), dose.chem.Beta(), dose.chem.base.prec, dose.T, dose.p);
        DoseDa(S, Flow(), dose.chem.Beta(), dose.vth)
      else
        DoseDa(S, Flow(), dose.chem.Beta(), dose.vth)
    }

    /** t0(): the time in which the flow delivers one molecule per site. */
    function T0(): (r: real)
      reads dose, dose.chem.base
      requires p0 != 0.0 && Flow() * dose.SiteArea() * dose.p != 0.0
      ensures dose.T != 0.0
      ensures r * Flow() * NumberDensity(dose.p, dose.T) == S / dose.SiteArea()
    {
      assert dose.T != 0.0 by { ZeroFlowAtZeroTemperature(flow0, p0); }
      T0DeliversOneMoleculePerSite(dose.T, S, Flow(), dose.SiteArea(), dose.p);
      DoseT0(dose.T, S, Flow(), dose.SiteArea(), dose.p)
    }

    /** Builds the base model with the Da of the initial state. */
    constructor (chem: ALDideal, p: real, p0: real, T: real, S: real, flow: real)
      requires chem.base.prec.mass != 0.0 && p0 != 0.0 && CarrierFlow(flow, p0, T) != 0.0
      ensures fresh(dose) && fresh(baseModel)
      ensures dose.chem == chem && dose.p == p && dose.T == T && dose.Valid()
      ensures this.S == S && this.p0 == p0 && flow0 == flow
      ensures baseModel.Da == Da()
    {
      var d := new IdealDoseModel(chem, p, T);
      dose := d;
      this.S := S;
      this.p0 := p0;
      flow0 := flow;
      baseModel := new PlugFlowMixedND(DoseDa(S, CarrierFlow(flow, p0, T), chem.Beta(), d.vth));
    }

    /** saturation_curve: refreshes the base model's Da, then returns its
        curve with time scaled by t0. */
    method SaturationCurve() returns (r: Curve)
      modifies baseModel
      requires p0 != 0.0 && Flow() != 0.0 && Flow() * dose.SiteArea() * dose.p != 0.0
      requires Da() != 0.0
      ensures baseModel.Da == Da()
      ensures r.t == Scaled(baseModel.SaturationCurve().t, T0())
      ensures r.cov == baseModel.SaturationCurve().cov
    {
      baseModel.Da := Da();
      var nd := baseModel.SaturationCurve();
      r := Curve(Scaled(nd.t, T0()), nd.cov);
    }

    /** run: refreshes the base model's Da, then returns its run with time
        scaled by t0. */
    method Run() returns (r: Profile)
      modifies baseModel
      requires p0 != 0.0 && Flow() != 0.0 && Flow() * dose.SiteArea() * dose.p != 0.0
      requires Da() != 0.0
      ensures baseModel.Da == Da()
      ensures r.t == Scaled(baseModel.Run().t, T0())
      ensures r.cov == baseModel.Run().cov && r.x == baseModel.Run().x
    {
      baseModel.Da := Da();
      var nd := baseModel.Run();
      r := Profile(Scaled(nd.t, T0()), nd.cov, nd.x);
    }
  }
}
