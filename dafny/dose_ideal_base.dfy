/** Base of the dimensional dose models (src/aldsim/dose/ideal/base.py). */
module DoseIdealBase {
  import opened Common
  import opened Chem
  import AldsimUtils

  /** Holds the chemistry, the pressure p and the temperature T; vth caches
      the thermal velocity at T and has no setter of its own. */
  class IdealDoseModel {
    const chem: ALDideal
    var p: real
    var T: real
    var vth: real

    /** vth is the precursor's thermal velocity at the current T. */
    predicate Valid()
      reads this
    {
      chem.base.prec.mass != 0.0 && vth == chem.base.prec.Vth(T)
    }

    /** Assigns p, then T through its setter. */
    constructor (chem: ALDideal, p: real, T: real)
      requires chem.base.prec.mass != 0.0
      ensures this.chem == chem && this.p == p && this.T == T && Valid()
    {
      this.chem := chem;
      this.p := p;
      this.T := T;
      vth := chem.base.prec.Vth(T);
    }

    /** T setter: refreshes vth, then stores T. */
    method SetT(value: real)
      modifies this
      requires chem.base.prec.mass != 0.0
      ensures T == value && vth == chem.base.prec.Vth(value) && p == old(p) && Valid()
    {
      vth := chem.base.prec.Vth(value);
      T := value;
    }

    /** p setter: only p changes. */
    method SetP(value: real)
      modifies this
      ensures p == value && T == old(T) && vth == old(vth)
    {
      p := value;
    }

    /** site_area getter: the chemistry's site area. */
    function SiteArea(): (r: real)
      reads chem.base
      ensures r == chem.base.siteArea
    {
      chem.base.siteArea
    }

    /** site_area setter: writes through to the chemistry, which keeps its
        reciprocal relation; the model's own fields do not change. */
    method SetSiteArea(value: real)
      modifies chem.base
      requires value != 0.0
      ensures SiteArea() == value && chem.base.nsites == chem.base.f / value
      ensures chem.base.f == old(chem.base.f) && chem.base.Valid()
      ensures p == old(p) && T == old(T) && vth == old(vth)
    {
      chem.base.SetSiteArea(value);
    }

    /** The `mass` property as written reads `self.prec`, which is never
        assigned: AttributeError. */
    function MassAsWritten(): (r: Result<real>)
      ensures r == Err(AttributeError)
    {
      Err(AttributeError)
    }

    /** The mass through the chemistry's precursor: the mass whose thermal
        velocity the model holds. */
    function Mass(): (r: real)
      reads this
      ensures Valid() ==> r != 0.0 && vth == AldsimUtils.CalcVth(r, T)
    {
      chem.base.prec.mass
    }
  }
}
