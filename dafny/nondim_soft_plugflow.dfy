/** Nondimensional two-pathway plug-flow model
    (src/aldsim/nondim/softsat/batch/plugflow.py). Its rate and coverage are
    those of the SoftBatch module. */
module NondimSoftPlugFlow {
  import opened Common
  import opened SoftBatch

  /** Model of class PlugFlowMixed of the nondimensional soft-saturation
      package; all fields are set once. */
  class PlugFlowMixed {
    const D1: real
    const D2: real
    const f1: real
    const f2: real
    const a: real

    constructor (D1: real, D2: real, f1: real, f2: real)
      requires D1 != 0.0
      ensures this.D1 == D1 && this.D2 == D2 && this.f1 == f1 && this.f2 == f2
      ensures this.a * D1 == D2
    {
      this.D1 := D1;
      this.D2 := D2;
      this.f1 := f1;
      this.f2 := f2;
      this.a := D2 / D1;
    }

    /** _f(t, y): the plug-flow two-pathway rate of the SoftBatch model,
        which with a single pathway is -(1 - exp(-D1 y)). */
    function Rate(y: real): (r: real)
      requires Consumption(D1, D2, f1, f2, a, y) != 0.0
      ensures f1 == 1.0 && f2 == 0.0 ==> r == -(1.0 - Exp(-(D1 * y)))
    {
      if f1 == 1.0 && f2 == 0.0 then
        assert Consumption(D1, D2, f1, f2, a, y) == D1 * y;
        SinglePathwayPlugRate(D1, D2, a, y);
        PlugSoftRate(D1, D2, f1, f2, a, y)
      else PlugSoftRate(D1, D2, f1, f2, a, y)
    }

    function SaturationCurve(ys: seq<real>, tmax: real := 5.0): (r: Curve)
      requires |ys| == |Arange(tmax, SoftGridStep)|
      ensures SoftCurveSpec(f1, f2, a, tmax, ys, r)
    {
      SoftCurve(f1, f2, a, tmax, ys)
    }

    function Run(tmax: real, dt: real): (r: Result<Profile>)
      ensures r == Err(NotImplementedError)
    {
      Err(NotImplementedError)
    }

    function CalcCoverage(t: real): (r: Result<real>)
      ensures r == Err(NotImplementedError)
    {
      Err(NotImplementedError)
    }
  }
}
