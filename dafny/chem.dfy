/** Precursors and surface kinetics (src/aldsim/chem.py). */
module Chem {
  import opened Common
  import opened Constants
  import AldsimUtils

  /** `_precursor_mass`: molecular masses (amu) of the known precursors. */
  const PrecursorMass: map<string, real> := map["TMA" := 144.17, "H2O" := 18.01]

  /** A precursor molecule: its name and molecular mass in amu. */
  datatype Precursor = Precursor(name: string, mass: real)
  {
    /** Mean thermal velocity at temperature T (K). */
    function Vth(T: real): real
      requires mass != 0.0
    {
      AldsimUtils.CalcVth(mass, T)
    }

    /** A precursor k times heavier at a k times higher temperature has the
        same thermal velocity. */
    lemma VthOfScaledPrecursor(k: real, T: real)
      requires mass != 0.0 && k != 0.0
      ensures Precursor(name, k * mass).mass != 0.0
      ensures Precursor(name, k * mass).Vth(k * T) == Vth(T)
    {
      AldsimUtils.VthDependsOnTemperatureOverMass(mass, T, k);
    }

    /** Jwall(T, p): the kinetic-theory wall flux n*vth/4 of molecules per
        unit area, n = p/(kb T) being the number density of the gas. */
    function Jwall(T: real, p: real): (r: real)
      requires mass != 0.0 && T != 0.0
      ensures r == 0.25 * NumberDensity(p, T) * Vth(T)
    {
      0.25 * Vth(T) * p / (Kb * T)
    }
  }

  /** Number density p/(kb T) of an ideal gas at pressure p and temperature
      T. */
  function NumberDensity(p: real, T: real): (n: real)
    requires T != 0.0
    ensures n * (Kb * T) == p
  {
    p / (Kb * T)
  }

  /** Precursor(name='None', mass=None): without a mass, the mass is looked
      up by name and an unknown name raises KeyError. */
  function NewPrecursor(name: string := "None", mass: Option<real> := None): (r: Result<Precursor>)
    ensures r.Ok? <==> mass.Some? || name in PrecursorMass
    ensures r.Err? ==> r.error == KeyError
    ensures r.Ok? ==> r.value.name == name
    ensures r.Ok? && mass.Some? ==> r.value.mass == mass.value
    ensures r.Ok? && mass.None? ==> r.value.mass == PrecursorMass[name]
  {
    if mass.Some? then Ok(Precursor(name, mass.value))
    else if name in PrecursorMass then Ok(Precursor(name, PrecursorMass[name]))
    else Err(KeyError)
  }

  /** The table masses, and the default name 'None', which is not in the
      table, so `Precursor()` raises KeyError. */
  lemma PrecursorTable()
    ensures NewPrecursor("TMA") == Ok(Precursor("TMA", 144.17))
    ensures NewPrecursor("H2O") == Ok(Precursor("H2O", 18.01))
    ensures NewPrecursor() == Err(KeyError)
  {
    assert "None" !in PrecursorMass;
  }

  /** Base class of self-limited kinetics: a fraction f of the surface is
      reactive, made of sites of area siteArea at a density nsites. */
  class SurfaceKinetics {
    const prec: Precursor
    var f: real
    var siteArea: real
    var nsites: real

    /** The reciprocal relation every setter restores. */
    predicate Valid()
      reads this
    {
      siteArea * nsites == f
    }

    /** Sets `_f`, then nsites through its setter. */
    constructor (prec: Precursor, nsites: real, f: real := 1.0)
      requires nsites != 0.0
      ensures this.prec == prec && this.f == f && this.nsites == nsites
      ensures siteArea == f / nsites && Valid()
    {
      this.prec := prec;
      this.f := f;
      this.nsites := nsites;
      this.siteArea := f / nsites;
    }

    /** site_area setter: nsites follows as f/site_area. */
    method SetSiteArea(value: real)
      modifies this
      requires value != 0.0
      ensures siteArea == value && nsites == f / value && f == old(f) && Valid()
    {
      siteArea := value;
      nsites := f / siteArea;
    }

    /** nsites setter: site_area follows as f/nsites. */
    method SetNsites(value: real)
      modifies this
      requires value != 0.0
      ensures nsites == value && siteArea == f / value && f == old(f) && Valid()
    {
      nsites := value;
      siteArea := f / nsites;
    }

    /** f setter: site_area is kept and nsites recomputed. */
    method SetF(value: real)
      modifies this
      requires siteArea != 0.0
      ensures f == value && siteArea == old(siteArea) && nsites == value / siteArea && Valid()
    {
      f := value;
      nsites := f / siteArea;
    }

    /** nsites_mol: the site density in moles. */
    function NsitesMol(): (r: real)
      reads this
      ensures r * Nav == nsites
    {
      nsites / Nav
    }

    /** The `f` getter as written: its body evaluates `self._f` without
        returning it, so every read of `self.f` gives None. */
    function FAsWritten(): (r: Option<real>)
      ensures r.None?
    {
      None
    }
  }

  /** Ideal first-order irreversible Langmuir kinetics. The SurfaceKinetics
      part is held in `base`. */
  class ALDideal {
    const base: SurfaceKinetics
    const beta0: real
    const dm: real

    constructor (prec: Precursor, nsites: real, beta0: real, f: real := 1.0, dm: real := 1.0)
      requires nsites != 0.0
      ensures fresh(base) && base.prec == prec && base.f == f && base.nsites == nsites
      ensures base.siteArea == f / nsites && base.Valid()
      ensures this.beta0 == beta0 && this.dm == dm
    {
      base := new SurfaceKinetics(prec, nsites, f);
      this.beta0 := beta0;
      this.dm := dm;
    }

    /** beta(cov=0) as written: `self.f` is None, and None*beta0 raises
        TypeError. */
    function BetaAsWritten(cov: real := 0.0): (r: Result<real>)
      ensures r == Err(TypeError)
    {
      match base.FAsWritten()
      case None => Err(TypeError)
      case Some(f) => Ok(f * beta0 * (1.0 - cov))
    }

    /** beta_av(av) with the f getter returning `_f`. */
    function BetaAv(av: real): real
      reads base
    {
      base.f * beta0 * av
    }

    /** The averaged sticking probability is the bare-surface beta scaled by
        the available fraction. */
    lemma BetaAvScalesBareSurface(av: real)
      ensures BetaAv(av) == Beta(0.0) * av
      ensures BetaAv(0.0) == 0.0
    {
    }

    /** beta(cov=0) with the f getter returning `_f`: the sticking of the
        available fraction 1 - cov, zero on a saturated surface. */
    function Beta(cov: real := 0.0): (r: real)
      reads base
      ensures r == BetaAv(1.0 - cov)
      ensures cov == 1.0 ==> r == 0.0
    {
      base.f * beta0 * (1.0 - cov)
    }

    /** t0(T, p): characteristic saturation time, the reciprocal of the rate
        site_area*Jwall*beta0 at which one site is hit and reacts. */
    function T0(T: real, p: real): (r: real)
      reads base
      requires base.prec.mass != 0.0 && T != 0.0
      requires base.siteArea * base.prec.Jwall(T, p) * beta0 != 0.0
      ensures r * (base.siteArea * base.prec.Jwall(T, p) * beta0) == 1.0
    {
      1.0 / (base.siteArea * base.prec.Jwall(T, p) * beta0)
    }
  }

  /** Two-pathway first-order irreversible Langmuir kinetics. */
  class ALDsoft {
    const base: SurfaceKinetics
    const beta1: real
    const beta2: real
    const f1: real
    const f2: real

    /** f2 defaults to 1 - f1; the base class gets f = f1 + f2. */
    constructor (prec: Precursor, nsites: real, beta1: real, beta2: real, f1: real, f2: Option<real> := None)
      requires nsites != 0.0
      ensures this.beta1 == beta1 && this.beta2 == beta2 && this.f1 == f1
      ensures this.f2 == (if f2.Some? then f2.value else 1.0 - f1)
      ensures fresh(base) && base.prec == prec && base.nsites == nsites
      ensures base.f == this.f1 + this.f2 && base.Valid()
      ensures f2.None? ==> base.f == 1.0 && base.siteArea == 1.0 / nsites
    {
      this.beta1 := beta1;
      this.beta2 := beta2;
      this.f1 := f1;
      this.f2 := if f2.Some? then f2.value else 1.0 - f1;
      base := new SurfaceKinetics(prec, nsites, f1 + (if f2.Some? then f2.value else 1.0 - f1));
    }

    /** beta_av(av1, av2): the pathways' sticking weighted by their available
        fractions. */
    function BetaAv(av1: real, av2: real): real
    {
      f1 * beta1 * av1 + f2 * beta2 * av2
    }

    /** The two pathways contribute independently, each in proportion to its
        own available fraction. */
    lemma BetaAvSplitsByPathway(av1: real, av2: real)
      ensures BetaAv(av1, av2) == BetaAv(av1, 0.0) + BetaAv(0.0, av2)
      ensures BetaAv(av1, 0.0) == av1 * BetaAv(1.0, 0.0)
      ensures BetaAv(0.0, av2) == av2 * BetaAv(0.0, 1.0)
    {
    }

    /** beta(cov1=0, cov2=0): each pathway's sticking weighted by its available
        fraction, zero when both pathways are saturated. */
    function Beta(cov1: real := 0.0, cov2: real := 0.0): (r: real)
      ensures r == BetaAv(1.0 - cov1, 1.0 - cov2)
      ensures cov1 == 1.0 && cov2 == 1.0 ==> r == 0.0
    {
      f1 * beta1 * (1.0 - cov1) + f2 * beta2 * (1.0 - cov2)
    }

    /** t0(T, p): one characteristic time per pathway. */
    function T0(T: real, p: real): (r: (real, real))
      reads base
      requires base.prec.mass != 0.0 && T != 0.0
      requires base.siteArea * base.prec.Jwall(T, p) * beta1 != 0.0
      requires base.siteArea * base.prec.Jwall(T, p) * beta2 != 0.0
      ensures r.0 * (base.siteArea * base.prec.Jwall(T, p) * beta1) == 1.0
      ensures r.1 * (base.siteArea * base.prec.Jwall(T, p) * beta2) == 1.0
    {
      (1.0 / (base.siteArea * base.prec.Jwall(T, p) * beta1),
       1.0 / (base.siteArea * base.prec.Jwall(T, p) * beta2))
    }
  }
}
