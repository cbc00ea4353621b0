/** Precursor and kinetics parameter objects of src/aldsim/aldchem.py. */
module AldChem {
  import opened Common

  /** Precursor(name='None', M=100, ligands=None). */
  datatype Precursor = Precursor(name: string := "None", M: real := 100.0)

  /** The defaults checked by the unit tests: name 'None' and mass 100. */
  lemma DefaultPrecursor()
    ensures Precursor().name == "None" && Precursor().M == 100.0
    ensures Precursor(name := "TMA", M := 101.5).name == "TMA"
  {
  }

  /** Ideal kinetics: f is a plain attribute, site_area and nsites are
      reciprocal properties, and beta holds beta0. */
  class ALDKinetics {
    var f: real
    var siteArea: real
    var nsites: real
    var beta: real

    predicate Valid()
      reads this
    {
      siteArea * nsites == f
    }

    /** Sets f, then nsites through its setter, then beta. */
    constructor (nsites: real, beta0: real, f: real := 1.0)
      requires nsites != 0.0
      ensures this.f == f && this.nsites == nsites && siteArea == f / nsites
      ensures beta == beta0 && Valid()
    {
      this.f := f;
      this.nsites := nsites;
      siteArea := f / nsites;
      beta := beta0;
    }

    /** site_area setter: nsites follows as f/site_area. */
    method SetSiteArea(value: real)
      modifies this
      requires value != 0.0
      ensures siteArea == value && nsites == f / value && f == old(f) && beta == old(beta) && Valid()
    {
      siteArea := value;
      nsites := f / siteArea;
    }

    /** nsites setter: site_area follows as f/nsites. */
    method SetNsites(value: real)
      modifies this
      requires value != 0.0
      ensures nsites == value && siteArea == f / value && f == old(f) && beta == old(beta) && Valid()
    {
      nsites := value;
      siteArea := f / nsites;
    }

    /** Assigning the plain attribute f refreshes neither site_area nor
        nsites. */
    method SetF(value: real)
      modifies this
      ensures f == value && siteArea == old(siteArea) && nsites == old(nsites) && beta == old(beta)
      ensures Valid() <==> siteArea * nsites == value
    {
      f := value;
    }
  }

  /** The unit test: ALDKinetics(1e19, 1e-2) has site area 1e-19, and after
      site_area := 1e-18 it has 1e18 sites. */
  method SiteAreaScenario() returns (initialArea: real, laterSites: real)
    ensures initialArea == 1e-19 && laterSites == 1e18
  {
    var k := new ALDKinetics(1e19, 1e-2);
    initialArea := k.siteArea;
    k.SetSiteArea(1e-18);
    laterSites := k.nsites;
  }

  /** Attribute lookup on a Python object: AttributeError for a name that
      was never assigned. */
  function ReadAttribute(attrs: map<string, real>, name: string): (r: Result<real>)
    ensures r.Ok? <==> name in attrs
    ensures r.Err? ==> r.error == AttributeError
    ensures r.Ok? ==> r.value == attrs[name]
  {
    if name in attrs then Ok(attrs[name]) else Err(AttributeError)
  }

  /** SoftSaturating.__init__ as written: when it tests `self.f2 is None`,
      only nsites, beta1, beta2 and f1 are assigned, so the lookup raises
      AttributeError whatever the arguments. The result would be f. */
  function SoftSaturatingAsWritten(nsites: real, beta1: real, beta2: real, f1: real,
                                   f2: Option<real>): (r: Result<real>)
    ensures r == Err(AttributeError)
  {
    var attrs := map["nsites" := nsites, "beta1" := beta1, "beta2" := beta2, "f1" := f1];
    assert "f2" !in attrs;
    match ReadAttribute(attrs, "f2")
    case Err(e) => Err(e)
    case Ok(v) => Ok(f1 + v)
  }

  /** SoftSaturating with the argument f2 tested instead of the attribute:
      f2 defaults to 1 - f1, f = f1 + f2 and the site area is f/nsites. */
  class SoftSaturating {
    const nsites: real
    const beta1: real
    const beta2: real
    const f1: real
    const f2: real
    const f: real
    const siteArea: real

    constructor (nsites: real, beta1: real, beta2: real, f1: real, f2: Option<real> := None)
      requires nsites != 0.0
      ensures this.nsites == nsites && this.beta1 == beta1 && this.beta2 == beta2 && this.f1 == f1
      ensures this.f2 == (if f2.Some? then f2.value else 1.0 - f1)
      ensures f == this.f1 + this.f2 && siteArea * nsites == f
      ensures f2.None? ==> f == 1.0
    {
      this.nsites := nsites;
      this.beta1 := beta1;
      this.beta2 := beta2;
      this.f1 := f1;
      this.f2 := if f2.Some? then f2.value else 1.0 - f1;
      f := f1 + (if f2.Some? then f2.value else 1.0 - f1);
      siteArea := (f1 + (if f2.Some? then f2.value else 1.0 - f1)) / nsites;
    }
  }

  /** A chemistry: precursor, kinetics and the mass change per cycle. */
  class ALDChem {
    const prec: Precursor
    const kinetics: ALDKinetics
    const dm: real
    /** The attribute `default_dm`, which exists only when dm was not
        given. */
    const defaultDm: Option<bool>

    constructor (prec: Precursor, kinetics: ALDKinetics, dm: Option<real> := None)
      ensures this.prec == prec && this.kinetics == kinetics
      ensures dm.None? ==> defaultDm == Some(true) && this.dm == 1.0
      ensures dm.Some? ==> defaultDm.None? && this.dm == dm.value
    {
      this.prec := prec;
      this.kinetics := kinetics;
      if dm.None? {
        defaultDm := Some(true);
        this.dm := 1.0;
      } else {
        defaultDm := None;
        this.dm := dm.value;
      }
    }
  }
}
