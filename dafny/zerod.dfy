/** Zero-dimensional dose model (src/aldsim/dose/ideal/zerod.py). */
module ZeroD {
  import opened Common
  import opened Constants
  import opened Chem
  import opened DoseIdealBase

  /** The keyword arguments ZeroD passes on, as the (p, T) slots of
      IdealDoseModel(chem, p, T) as written: T goes into the p slot and p into
      the T slot. A missing keyword raises KeyError. */
  function BindAsWritten(kwargs: map<string, real>): (r: Result<(real, real)>)
    ensures r.Ok? <==> "T" in kwargs && "p" in kwargs
    ensures r.Err? ==> r.error == KeyError
    ensures r.Ok? ==> r.value.0 == kwargs["T"] && r.value.1 == kwargs["p"]
  {
    if "T" in kwargs && "p" in kwargs then Ok((kwargs["T"], kwargs["p"])) else Err(KeyError)
  }

  /** The binding with pressure in the p slot and temperature in the T
      slot. */
  function Bind(kwargs: map<string, real>): (r: Result<(real, real)>)
    ensures r.Ok? <==> "T" in kwargs && "p" in kwargs
    ensures r.Err? ==> r.error == KeyError
    ensures r.Ok? ==> r.value.0 == kwargs["p"] && r.value.1 == kwargs["T"]
  {
    if "T" in kwargs && "p" in kwargs then Ok((kwargs["p"], kwargs["T"])) else Err(KeyError)
  }

  /** As written, a 10 Pa dose at 450 K builds a model at pressure 450 and
      temperature 10, so its vth is taken at "10 K". */
  lemma AsWrittenSwapsPressureAndTemperature()
    ensures BindAsWritten(map["p" := 10.0, "T" := 450.0]) == Ok((450.0, 10.0))
    ensures Bind(map["p" := 10.0, "T" := 450.0]) == Ok((10.0, 450.0))
  {
    var k := map["p" := 10.0, "T" := 450.0];
    assert "p" in k && "T" in k;
  }

  /** The two bindings agree exactly when the pressure and temperature values
      coincide. */
  lemma AsWrittenAgreesOnlyOnEqualValues(kwargs: map<string, real>)
    requires "T" in kwargs && "p" in kwargs
    ensures BindAsWritten(kwargs) == Bind(kwargs) <==> kwargs["p"] == kwargs["T"]
  {
  }

  /** `0.25*site_area*vth*p/(kb*T)*beta0`, the rate at which a site reacts. */
  function SiteRate(siteArea: real, vth: real, p: real, T: real, beta0: real): (r: real)
    requires T != 0.0
    ensures r == siteArea * (0.25 * NumberDensity(p, T) * vth) * beta0
  {
    RegroupSiteRate(siteArea, vth, p, Kb * T, beta0);
    0.25 * siteArea * vth * p / (Kb * T) * beta0
  }

  lemma {:induction false} RegroupSiteRate(s: real, v: real, p: real, c: real, b: real)
    requires c != 0.0
    ensures 0.25 * s * v * p / c * b == s * (0.25 * v * p / c) * b
  {
    assert 0.25 * s * v * p / c == s * (0.25 * v * p / c);
  }

  /** The grid np.arange(0, 5*t0, t0/100) has exactly 500 points. */
  lemma {:induction false} HundredthGrid(t0: real)
    requires t0 > 0.0
    ensures GridSize(5.0 * t0, 0.01 * t0) == 500
  {
    var n := GridSize(5.0 * t0, 0.01 * t0);
    var k := n as real;
    assert k * (0.01 * t0) >= 5.0 * t0;
    assert (k * 0.01 - 5.0) * t0 >= 0.0;
    assert k >= 500.0;
    assert n > 0;
    assert (k - 1.0) * (0.01 * t0) < 5.0 * t0;
    assert ((k - 1.0) * 0.01 - 5.0) * t0 < 0.0;
    assert k - 1.0 < 500.0;
  }

  /** The dose curve `1 - exp(-t/t0)` of a first-order reaction. */
  function FirstOrderCoverage(t: real, t0: real): real
    requires t0 != 0.0
  {
    1.0 - Exp(-t / t0)
  }

  /** The first-order dose curve starts bare and never reaches full
      coverage. */
  lemma FirstOrderCoverageBounds(t: real, t0: real)
    requires Laws() && t0 != 0.0
    ensures FirstOrderCoverage(0.0, t0) == 0.0
    ensures FirstOrderCoverage(t, t0) < 1.0
  {
    assert -0.0 / t0 == 0.0;
  }

  class ZeroD {
    const dose: IdealDoseModel

    /** The constructor with the corrected binding. */
    constructor (chem: ALDideal, kwargs: map<string, real>)
      requires "T" in kwargs && "p" in kwargs && chem.base.prec.mass != 0.0
      ensures fresh(dose) && dose.chem == chem
      ensures dose.p == kwargs["p"] && dose.T == kwargs["T"] && dose.Valid()
    {
      var b := Bind(kwargs).value;
      dose := new IdealDoseModel(chem, b.0, b.1);
    }

    /** nu: the site rate at the model's state. */
    function Nu(): real
      reads dose, dose.chem.base
      requires dose.T != 0.0
    {
      SiteRate(dose.chem.base.siteArea, dose.vth, dose.p, dose.T, dose.chem.beta0)
    }

    /** With vth at the model's own temperature, nu is the rate the kinetics
        describes, so t0 = 1/nu is ALDideal.t0(T, p). */
    lemma NuIsKineticRate()
      requires dose.Valid() && dose.T != 0.0
      ensures Nu() == dose.chem.base.siteArea * dose.chem.base.prec.Jwall(dose.T, dose.p) * dose.chem.beta0
    {
      RegroupSiteRate(dose.chem.base.siteArea, dose.vth, dose.p, Kb * dose.T, dose.chem.beta0);
    }

    /** saturation_curve: with t0 = 1/nu, the grid 0, t0/100, ... below 5*t0
        (500 points) and the coverage 1 - exp(-t/t0) on it. */
    function SaturationCurve(): (r: Curve)
      reads dose, dose.chem.base
      requires dose.T != 0.0 && Nu() > 0.0
      ensures |r.t| == 500 && |r.cov| == 500
      ensures forall i :: 0 <= i < 500 ==>
                && r.t[i] == (i as real) * (0.01 * (1.0 / Nu())) && r.t[i] < 5.0 * (1.0 / Nu())
                && r.cov[i] == FirstOrderCoverage(r.t[i], 1.0 / Nu())
    {
      var t0 := 1.0 / Nu();
      var t := Arange(5.0 * t0, 0.01 * t0);
      HundredthGrid(t0);
      Curve(t, seq(|t|, i requires 0 <= i < |t| => FirstOrderCoverage(t[i], t0)))
    }

    /** The curve starts bare: exp(0) = 1. */
    lemma SaturationCurveStartsAtZero()
      requires Laws() && dose.T != 0.0 && Nu() > 0.0
      ensures SaturationCurve().t[0] == 0.0 && SaturationCurve().cov[0] == 0.0
    {
      var t0 := 1.0 / Nu();
      assert -0.0 / t0 == 0.0;
    }
  }
}
