/** The stand-alone utilities of src/aldutils.py: site-area conversions with
    their own argument order, and the parameter object ALDchem. Its kb and amu
    have the values of the Constants module, and its calc_vth is the formula
    of AldsimUtils.CalcVth. */
module AldUtils {
  import opened Common
  import opened Constants
  import AldsimUtils

  /** calc_sitearea_fromgpc(M, density, gpc, nmol): the src/aldsim function
      with gpc moved from first to third place. */
  function SiteAreaFromGpc(M: real, density: real, gpc: real, nmol: real := 1.0): (s: real)
    requires M != 0.0 && nmol * (density * gpc * 1e-8 / M * 6.022e23) != 0.0
    ensures AldsimUtils.SitesPerCm2(gpc, M, density) == density * gpc * 1e-8 / M * 6.022e23
    ensures s == AldsimUtils.SiteAreaFromGpc(gpc, M, density, nmol)
  {
    var masscm2 := density * gpc * 1e-8;
    var molcm2 := masscm2 / M * 6.022e23;
    1e-4 / (nmol * molcm2)
  }

  /** calc_sitearea_fromqcm(M, mpc, nmol): the src/aldsim function with M and
      mpc swapped. */
  function SiteAreaFromQcm(M: real, mpc: real, nmol: real := 1.0): (s: real)
    requires mpc * 1e-5 * 6.022e23 * nmol != 0.0
    ensures AldsimUtils.QcmDivisor(mpc, nmol) != 0.0
    ensures s == AldsimUtils.SiteAreaFromQcm(mpc, M, nmol)
  {
    M / (mpc * 1e-5 * 6.022e23 * nmol)
  }

  /** calc_sitearea_fromrbs(atoms_area, atoms_permol=1.0): the same function
      as in src/aldsim. */
  function SiteAreaFromRbs(atomsArea: real, atomsPermol: real := 1.0): (s: real)
    requires atomsArea != 0.0
    ensures s == AldsimUtils.SiteAreaFromRbs(atomsArea, atomsPermol)
  {
    atomsPermol / atomsArea
  }

  /** Parameters of an ideal self-limited process. The base fields are p, M,
      beta0, s0 and T; vth, alpha, n0 and nu0 are derived from them by
      `_update`, which every setter calls. */
  class ALDchem {
    var p: real
    var M: real
    var beta0: real
    var s0: real
    var T: real
    var vth: real
    var alpha: real
    var n0: real
    var nu0: real
    /** Mass per cycle, an attribute that exists only after from_qcm. */
    var mpc: Option<real>

    /** The derived fields agree with the base fields. */
    predicate Valid()
      reads this
    {
      && M != 0.0 && T != 0.0
      && vth == AldsimUtils.CalcVth(M, T)
      && alpha == 0.25 * vth * beta0
      && n0 == p / (Kb * T)
      && nu0 == alpha * s0 * n0
    }

    constructor (p: real, M: real, beta0: real, s0: real, T: real)
      requires M != 0.0 && T != 0.0
      ensures this.p == p && this.M == M && this.beta0 == beta0 && this.s0 == s0 && this.T == T
      ensures mpc.None? && Valid()
    {
      this.p := p;
      this.M := M;
      this.beta0 := beta0;
      this.s0 := s0;
      this.T := T;
      mpc := None;
      new;
      Update();
    }

    /** _update: recomputes the derived fields from the base fields. */
    method Update()
      modifies this
      requires M != 0.0 && T != 0.0
      ensures p == old(p) && M == old(M) && beta0 == old(beta0) && s0 == old(s0) && T == old(T)
      ensures mpc == old(mpc) && Valid()
    {
      vth := AldsimUtils.CalcVth(M, T);
      alpha := 0.25 * vth * beta0;
      n0 := p / (Kb * T);
      nu0 := alpha * s0 * n0;
    }

    method SetS0(s0: real)
      modifies this
      requires Valid()
      ensures this.s0 == s0 && p == old(p) && M == old(M) && beta0 == old(beta0) && T == old(T)
      ensures mpc == old(mpc) && Valid()
    {
      this.s0 := s0;
      Update();
    }

    method SetM(M: real)
      modifies this
      requires Valid() && M != 0.0
      ensures this.M == M && p == old(p) && s0 == old(s0) && beta0 == old(beta0) && T == old(T)
      ensures mpc == old(mpc) && Valid()
    {
      this.M := M;
      Update();
    }

    method SetBeta0(beta0: real)
      modifies this
      requires Valid()
      ensures this.beta0 == beta0 && p == old(p) && M == old(M) && s0 == old(s0) && T == old(T)
      ensures mpc == old(mpc) && Valid()
    {
      this.beta0 := beta0;
      Update();
    }

    method SetT(T: real)
      modifies this
      requires Valid() && T != 0.0
      ensures this.T == T && p == old(p) && M == old(M) && beta0 == old(beta0) && s0 == old(s0)
      ensures mpc == old(mpc) && Valid()
    {
      this.T := T;
      Update();
    }

    method SetP(p: real)
      modifies this
      requires Valid()
      ensures this.p == p && M == old(M) && beta0 == old(beta0) && s0 == old(s0) && T == old(T)
      ensures mpc == old(mpc) && Valid()
    {
      this.p := p;
      Update();
    }

    /** from_qcm: stores mpc and sets s0 through its setter, so the derived
        fields follow. */
    method FromQcm(mpc: real, nmol: real := 1.0)
      modifies this
      requires Valid() && mpc * 1e-5 * 6.022e23 * nmol != 0.0
      ensures this.mpc == Some(mpc)
      ensures s0 == SiteAreaFromQcm(M, mpc, nmol)
      ensures p == old(p) && M == old(M) && beta0 == old(beta0) && T == old(T) && Valid()
    {
      this.mpc := Some(mpc);
      SetS0(SiteAreaFromQcm(M, mpc, nmol));
    }
  }
}
