/** Two-pathway ("soft saturation") batch model with plug-flow precursor
    transport (src/aldsim/core/softsat/batch.py). The rate and the coverage
    composition defined here are shared by the other plug-flow soft models. */
module SoftBatch {
  import opened Common

  /** Fixed time step of the soft-saturation evaluation grids. */
  const SoftGridStep: real := 0.01

  /** `f1*D1*y + f2*D2*y^a`: the total consumption rate of both pathways. */
  function Consumption(D1: real, D2: real, f1: real, f2: real, a: real, y: real): real
  {
    f1 * D1 * y + f2 * D2 * Pow(y, a)
  }

  /** The pathways consume independently: the total is the first pathway's
      consumption alone plus the second's alone, and at y = 1 each pathway
      consumes its fraction times its Damkohler number. */
  lemma ConsumptionAddsPathways(D1: real, D2: real, f1: real, f2: real, a: real, y: real)
    requires Laws()
    ensures Consumption(D1, D2, f1, f2, a, y)
            == Consumption(D1, D2, f1, 0.0, a, y) + Consumption(D1, D2, 0.0, f2, a, y)
    ensures Consumption(D1, D2, f1, f2, a, 1.0) == f1 * D1 + f2 * D2
  {
    assert Pow(1.0, a) == 1.0;
  }

  /** `-D1*y*(1 - exp(-dec))/dec`, the plug-flow two-pathway rate for the
      available fraction y of the first pathway. */
  function PlugSoftRate(D1: real, D2: real, f1: real, f2: real, a: real, y: real): (r: real)
    requires Consumption(D1, D2, f1, f2, a, y) != 0.0
    ensures r * Consumption(D1, D2, f1, f2, a, y)
            == -(D1 * y) * (1.0 - Exp(-Consumption(D1, D2, f1, f2, a, y)))
  {
    var dec := Consumption(D1, D2, f1, f2, a, y);
    -D1 * y * (1.0 - Exp(-dec)) / dec
  }

  /** With a single pathway (f1 = 1, f2 = 0) the rate is -(1 - exp(-D1 y)),
      the single-pathway plug-flow rate. */
  lemma SinglePathwayPlugRate(D1: real, D2: real, a: real, y: real)
    requires D1 * y != 0.0
    ensures Consumption(D1, D2, 1.0, 0.0, a, y) == D1 * y
    ensures PlugSoftRate(D1, D2, 1.0, 0.0, a, y) == -(1.0 - Exp(-(D1 * y)))
  {
    var dec := D1 * y;
    var e := 1.0 - Exp(-dec);
    assert Consumption(D1, D2, 1.0, 0.0, a, y) == dec;
    assert PlugSoftRate(D1, D2, 1.0, 0.0, a, y) == -D1 * y * e / dec;
    assert -D1 * y * e == -(dec * e);
    assert -D1 * y * e / dec == -(dec * e) / dec;
    CancelFactor(dec, e);
  }

  /** `-(d*e)/d == -e` for nonzero d. */
  lemma {:induction false} CancelFactor(d: real, e: real)
    requires d != 0.0
    ensures -(d * e) / d == -e
  {
    assert -(d * e) == (-e) * d;
  }

  /** Total coverage `f1*(1-y1) + f2*(1-y1^a)` of the two pathways. */
  function SoftCoverage(f1: real, f2: real, a: real, y1: real): real
  {
    f1 * (1.0 - y1) + f2 * (1.0 - Pow(y1, a))
  }

  /** With the whole surface on the first pathway (f1 = 1, f2 = 0) the
      coverage is the reacted fraction 1 - y1, as in the ideal models; with
      f2 = 0 in general it is that fraction scaled by f1. */
  lemma SoftCoverageSinglePathway(f1: real, a: real, y1: real)
    ensures SoftCoverage(1.0, 0.0, a, y1) == 1.0 - y1
    ensures SoftCoverage(f1, 0.0, a, y1) == f1 * SoftCoverage(1.0, 0.0, a, y1)
  {
  }

  /** At the initial state y1 = 1 neither pathway has covered anything,
      since 1^a = 1. */
  lemma SoftCoverageStartsAtZero(f1: real, f2: real, a: real)
    requires Laws()
    ensures SoftCoverage(f1, f2, a, 1.0) == 0.0
  {
    assert Pow(1.0, a) == 1.0;
  }

  /** saturation_curve(tmax) for the trajectory ys of the first pathway: the
      grid `np.arange(0, tmax, 0.01)`, whatever step a caller wants, and the
      total coverage at each point. */
  predicate SoftCurveSpec(f1: real, f2: real, a: real, tmax: real, ys: seq<real>, r: Curve)
  {
    && r.t == Arange(tmax, SoftGridStep) && |ys| == |r.t| && |r.cov| == |r.t|
    && forall i :: 0 <= i < |ys| ==> r.cov[i] == SoftCoverage(f1, f2, a, ys[i])
  }

  function SoftCurve(f1: real, f2: real, a: real, tmax: real, ys: seq<real>): (r: Curve)
    requires |ys| == |Arange(tmax, SoftGridStep)|
    ensures SoftCurveSpec(f1, f2, a, tmax, ys, r)
  {
    Curve(Arange(tmax, SoftGridStep), seq(|ys|, i requires 0 <= i < |ys| => SoftCoverage(f1, f2, a, ys[i])))
  }

  /** The first point of a soft saturation curve started from y1 = 1 is
      (0, 0). */
  lemma SoftCurveStartsAtOrigin(f1: real, f2: real, a: real, tmax: real, ys: seq<real>, r: Curve)
    requires Laws() && tmax > 0.0 && SoftCurveSpec(f1, f2, a, tmax, ys, r) && ys[0] == 1.0
    ensures r.t[0] == 0.0 && r.cov[0] == 0.0
  {
    ArangeComplete(tmax, SoftGridStep, 0);
    SoftCoverageStartsAtZero(f1, f2, a);
  }

  /** Model of class PlugFlowMixedNonD; all fields are set once. */
  class PlugFlowMixedNonD {
    const D1: real
    const D2: real
    const f1: real
    const f2: real
    const a: real

    constructor (D1: real, D2: real, f1: real, f2: real)
      requires D1 != 0.0
      ensures this.D1 == D1 && this.D2 == D2 && this.f1 == f1 && this.f2 == f2
      ensures this.a * D1 == D2
    {
      this.D1 := D1;
      this.D2 := D2;
      this.f1 := f1;
      this.f2 := f2;
      this.a := D2 / D1;
    }

    /** _f(t, y): with a single pathway it is the single-pathway plug-flow
        rate. */
    function Rate(y: real): (r: real)
      requires Consumption(D1, D2, f1, f2, a, y) != 0.0
      ensures f1 == 1.0 && f2 == 0.0 ==> r == -(1.0 - Exp(-(D1 * y)))
    {
      if f1 == 1.0 && f2 == 0.0 then
        assert Consumption(D1, D2, f1, f2, a, y) == D1 * y;
        SinglePathwayPlugRate(D1, D2, a, y);
        PlugSoftRate(D1, D2, f1, f2, a, y)
      else PlugSoftRate(D1, D2, f1, f2, a, y)
    }

    function SaturationCurve(ys: seq<real>, tmax: real := 5.0): (r: Curve)
      requires |ys| == |Arange(tmax, SoftGridStep)|
      ensures SoftCurveSpec(f1, f2, a, tmax, ys, r)
    {
      SoftCurve(f1, f2, a, tmax, ys)
    }

    function Run(tmax: real, dt: real): (r: Result<Profile>)
      ensures r == Err(NotImplementedError)
    {
      Err(NotImplementedError)
    }

    function CalcCoverage(t: real): (r: Result<real>)
      ensures r == Err(NotImplementedError)
    {
      Err(NotImplementedError)
    }
  }
}
