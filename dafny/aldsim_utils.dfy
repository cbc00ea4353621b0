/** Thermal velocity and site-area conversions (src/aldsim/aldutils.py). */
module AldsimUtils {
  import opened Common
  import opened Constants

  /** math.pi */
  const Pi: real := 3.141592653589793

  /** Avogadro's number as written in the site-area formulas. */
  const Avogadro: real := 6.022e23

  /** Mean thermal velocity `sqrt(8 kb T/(pi amu M))` of a molecule of mass
      M (amu) at temperature T (K). */
  function CalcVth(M: real, T: real): real
    requires M != 0.0
  {
    Sqrt(VthSquared(M, T))
  }

  /** `8 kb T/(pi amu M)`, the mean squared speed up to the factor pi/8. */
  function VthSquared(M: real, T: real): real
    requires M != 0.0
  {
    8.0 * Kb * T / (Pi * Amu * M)
  }

  /** The thermal velocity depends on T and M only through T/M: scaling both
      by the same factor leaves it unchanged. */
  lemma {:induction false} VthDependsOnTemperatureOverMass(M: real, T: real, k: real)
    requires M != 0.0 && k != 0.0
    ensures k * M != 0.0 && CalcVth(k * M, k * T) == CalcVth(M, T)
  {
    var c := 8.0 * Kb;
    var d := Pi * Amu;
    assert c * (k * T) == k * (c * T);
    assert d * (k * M) == k * (d * M);
    DivCancel(c * T, d * M, k);
    assert VthSquared(k * M, k * T) == VthSquared(M, T);
  }

  lemma {:induction false} DivCancel(a: real, b: real, k: real)
    requires b != 0.0 && k != 0.0
    ensures k * b != 0.0 && k * a / (k * b) == a / b
  {
    var q := a / b;
    assert q * b == a;
    assert q * (k * b) == k * a;
  }

  /** Moles of formula units per cm^2 deposited in one cycle,
      `density*gpc*1e-8/M*6.022e23`. */
  function SitesPerCm2(gpc: real, M: real, density: real): real
    requires M != 0.0
  {
    density * gpc * 1e-8 / M * Avogadro
  }

  /** calc_sitearea_fromgpc: nmol sites of the returned area (m^2) tile
      1 cm^2 = 1e-4 m^2 once per deposited formula unit. */
  function SiteAreaFromGpc(gpc: real, M: real, density: real, nmol: real := 1.0): (s: real)
    requires M != 0.0 && nmol * SitesPerCm2(gpc, M, density) != 0.0
    ensures s * (nmol * SitesPerCm2(gpc, M, density)) == 1e-4
  {
    1e-4 / (nmol * SitesPerCm2(gpc, M, density))
  }

  /** `mpc*1e-5*6.022e23*nmol`, the scaled molar deposition the QCM formula
      divides by. */
  function QcmDivisor(mpc: real, nmol: real): real
  {
    mpc * 1e-5 * Avogadro * nmol
  }

  /** calc_sitearea_fromqcm: the area times the deposition equals M. */
  function SiteAreaFromQcm(mpc: real, M: real, nmol: real := 1.0): (s: real)
    requires QcmDivisor(mpc, nmol) != 0.0
    ensures s * QcmDivisor(mpc, nmol) == M
  {
    M / QcmDivisor(mpc, nmol)
  }

  /** calc_sitearea_fromrbs: atoms_permol/atoms_area, so the default of one
      atom per molecule gives the reciprocal of the areal density. */
  function SiteAreaFromRbs(atomsArea: real, atomsPermol: real := 1.0): (s: real)
    requires atomsArea != 0.0
    ensures s * atomsArea == atomsPermol
  {
    atomsPermol / atomsArea
  }

  /** Doubling the molecules per formula unit halves the site area from
      growth per cycle. */
  lemma {:induction false} GpcHalvesWithDoubleNmol(gpc: real, M: real, density: real, nmol: real)
    requires M != 0.0 && nmol * SitesPerCm2(gpc, M, density) != 0.0
    ensures (2.0 * nmol) * SitesPerCm2(gpc, M, density) != 0.0
    ensures SiteAreaFromGpc(gpc, M, density, 2.0 * nmol) == SiteAreaFromGpc(gpc, M, density, nmol) / 2.0
  {
    var m := SitesPerCm2(gpc, M, density);
    assert (2.0 * nmol) * m == 2.0 * (nmol * m);
    Halving(1e-4, nmol * m);
  }

  /** Doubling the molecules per formula unit halves the site area from QCM
      mass. */
  lemma {:induction false} QcmHalvesWithDoubleNmol(mpc: real, M: real, nmol: real)
    requires QcmDivisor(mpc, nmol) != 0.0
    ensures QcmDivisor(mpc, 2.0 * nmol) != 0.0
    ensures SiteAreaFromQcm(mpc, M, 2.0 * nmol) == SiteAreaFromQcm(mpc, M, nmol) / 2.0
  {
    assert QcmDivisor(mpc, 2.0 * nmol) == 2.0 * QcmDivisor(mpc, nmol);
    Halving(M, QcmDivisor(mpc, nmol));
  }

  lemma Halving(n: real, d: real)
    requires d != 0.0
    ensures n / (2.0 * d) == (n / d) / 2.0
  {
  }
}
