/** Two-pathway ("soft saturation") batch model with well-stirred precursor
    transport (src/aldsim/core/softsat/batch/wellstirred.py). */
module SoftWellStirred {
  import opened Common
  import opened SoftBatch
  import ParticleBatchWellMixed

  /** `1 + f1*D1*y + f2*D2*y^a`, the denominator of the well-stirred
      two-pathway rate. */
  function StirredConsumption(D1: real, D2: real, f1: real, f2: real, a: real, y: real): real
  {
    1.0 + f1 * D1 * y + f2 * D2 * Pow(y, a)
  }

  /** Outlet denominator `1 + f1*y1 + f2*y2` of the utilisation. */
  function OutletDenominator(f1: real, f2: real, y1: real, y2: real): real
  {
    1.0 + f1 * y1 + f2 * y2
  }

  /** A run of the two-pathway model: time, total coverage, utilisation and
      the coverage of each pathway. */
  datatype SoftProfile = SoftProfile(t: seq<real>, cov: seq<real>, x: seq<real>, cov1: seq<real>, cov2: seq<real>)

  /** What `run` returns for the trajectory ys of the first pathway: y2 =
      y1^a, each pathway's coverage is one minus its available fraction, the
      total is weighted by f1 and f2, and x = 1/(1 + f1*y1 + f2*y2). */
  predicate SoftRunSpec(f1: real, f2: real, a: real, tmax: real, dt: real, ys: seq<real>, r: SoftProfile)
    requires dt > 0.0
  {
    && r.t == Arange(tmax, dt) && |ys| == |r.t|
    && |r.cov| == |r.t| && |r.x| == |r.t| && |r.cov1| == |r.t| && |r.cov2| == |r.t|
    && forall i :: 0 <= i < |ys| ==>
         && r.cov1[i] == 1.0 - ys[i] && r.cov2[i] == 1.0 - Pow(ys[i], a)
         && r.cov[i] == f1 * r.cov1[i] + f2 * r.cov2[i]
         && OutletDenominator(f1, f2, ys[i], Pow(ys[i], a)) != 0.0
         && r.x[i] == 1.0 / OutletDenominator(f1, f2, ys[i], Pow(ys[i], a))
  }

  predicate OutletDefined(f1: real, f2: real, a: real, ys: seq<real>)
  {
    forall i :: 0 <= i < |ys| ==> OutletDenominator(f1, f2, ys[i], Pow(ys[i], a)) != 0.0
  }

  /** Total coverage of a run is the soft coverage of its trajectory. */
  lemma RunCoverageIsSoftCoverage(f1: real, f2: real, a: real, tmax: real, dt: real,
                                  ys: seq<real>, r: SoftProfile, i: nat)
    requires dt > 0.0 && SoftRunSpec(f1, f2, a, tmax, dt, ys, r) && i < |ys|
    ensures r.cov[i] == SoftCoverage(f1, f2, a, ys[i])
  {
  }

  /** At the initial state y1 = 1 all three coverages are 0 and the
      utilisation is 1/(1 + f1 + f2). */
  lemma RunStartsUncoated(f1: real, f2: real, a: real, tmax: real, dt: real, ys: seq<real>, r: SoftProfile)
    requires Laws() && dt > 0.0 && tmax > 0.0 && SoftRunSpec(f1, f2, a, tmax, dt, ys, r) && ys[0] == 1.0
    ensures r.t[0] == 0.0 && r.cov[0] == 0.0 && r.cov1[0] == 0.0 && r.cov2[0] == 0.0
    ensures r.x[0] == 1.0 / (1.0 + f1 + f2)
  {
    ArangeComplete(tmax, dt, 0);
    assert Pow(1.0, a) == 1.0;
    assert OutletDenominator(f1, f2, 1.0, 1.0) == 1.0 + f1 + f2;
  }

  /** Model of class WellStirred of the soft-saturation package; all fields
      are set once. */
  class WellStirred {
    const D1: real
    const D2: real
    const f1: real
    const f2: real
    const a: real

    constructor (D1: real, D2: real, f1: real, f2: real)
      requires D1 != 0.0
      ensures this.D1 == D1 && this.D2 == D2 && this.f1 == f1 && this.f2 == f2
      ensures this.a * D1 == D2
    {
      this.D1 := D1;
      this.D2 := D2;
      this.f1 := f1;
      this.f2 := f2;
      this.a := D2 / D1;
    }

    /** _f(t, y) = -D1*y/dec: with a single pathway (f1 = 1, f2 = 0) it is
        the single-pathway well-stirred rate -D1*y/(1 + D1*y). */
    function Rate(y: real): (r: real)
      requires StirredConsumption(D1, D2, f1, f2, a, y) != 0.0
      ensures f1 == 1.0 && f2 == 0.0 ==>
                ParticleBatchWellMixed.Denominator(D1, y) != 0.0
                && r == ParticleBatchWellMixed.StirredRate(D1, y)
    {
      -D1 * y / StirredConsumption(D1, D2, f1, f2, a, y)
    }

    function Run(ys: seq<real>, tmax: real := 5.0, dt: real := 0.01): (r: SoftProfile)
      requires dt > 0.0 && |ys| == |Arange(tmax, dt)| && OutletDefined(f1, f2, a, ys)
      ensures SoftRunSpec(f1, f2, a, tmax, dt, ys, r)
    {
      var y2 := seq(|ys|, i requires 0 <= i < |ys| => Pow(ys[i], a));
      var cov1 := Complement(ys);
      var cov2 := Complement(y2);
      SoftProfile(Arange(tmax, dt),
                  seq(|ys|, i requires 0 <= i < |ys| => f1 * cov1[i] + f2 * cov2[i]),
                  seq(|ys|, i requires 0 <= i < |ys| => 1.0 / OutletDenominator(f1, f2, ys[i], y2[i])),
                  cov1, cov2)
    }

    /** The time and total coverage arrays of `run`. */
    function SaturationCurve(ys: seq<real>, tmax: real := 5.0, dt: real := 0.01): (r: Curve)
      requires dt > 0.0 && |ys| == |Arange(tmax, dt)| && OutletDefined(f1, f2, a, ys)
      ensures r.t == Run(ys, tmax, dt).t && r.cov == Run(ys, tmax, dt).cov
    {
      var p := Run(ys, tmax, dt);
      Curve(p.t, p.cov)
    }

    function CalcCoverage(t: real): (r: Result<real>)
      ensures r == Err(NotImplementedError)
    {
      Err(NotImplementedError)
    }
  }
}
