# aldsim core in Dafny

A Dafny model of the exact, stateable core of `aldsim`, a Python package that
simulates self-limited atomic layer deposition (ALD) surface reactions, and
of the older `aldutils` helper module. The model covers:

- the bounded damped Newton solver and the three model classes that repeat it
  inline (`dafny/solvers.dfy`);
- the nondimensional coverage models: well-mixed particles in a batch, the
  well-stirred and plug-flow-mixed batch reactors, spatial plug flow through a
  particle bed, and the two-pathway "soft-saturation" variants. This includes
  the algebra around their closed forms, the `t == 1` branch, the persistent
  `Da` override of `calc_coverage`, the post-processing of an ODE trajectory
  into coverage and utilisation arrays, and the reduction of the two-pathway
  rates to the single-pathway ones;
- the dimensional dose models (`WellStirred`, `ParticlePlugFlow`, `ZeroD` and
  their base `IdealDoseModel`): carrier flow, Damköhler number, the time
  scale `t0`, refreshing the delegate's `Da`, and rescaling time by `t0`;
- the kinetics and parameter objects (`SurfaceKinetics`, `ALDideal`,
  `ALDsoft`, `ALDKinetics`, `SoftSaturating`, `ALDChem`, `ALDchem`). Their
  reciprocal `site_area`/`nsites` setters keep `site_area * nsites == f`, and
  `ALDchem` refreshes its derived fields after every setter;
- the unit conversions and the site-area conversions.

Modelling conventions:

- `exp`, `log`, `float_power` and `sqrt` are uninterpreted functions
  (`Common.Exp`, `Common.Log`, `Common.Pow`, `Common.Sqrt`). Lemmas that need
  facts about them require `Common.Laws()`: exp > 0, exp(0) = 1, log(1) = 0,
  log(exp x) = x and 1^a = 1.
- `np.arange(0, stop, step)` is `Common.Arange(stop, step)`, the grid
  `t_i = i * step` for every `t_i < stop`.
- An ODE solution (`solve_ivp`, `ode_solver`) is an input sequence `ys`
  sampled on that grid.
- Python exceptions are `Err` values of `Common.Result`, except those listed
  under "Left out". A scalar formula whose divisor can be zero states that
  divisor as a `requires`.
- The Newton loops carry a fuel bound. Running out of fuel is a separate
  outcome (`Solvers.Outcome.OutOfFuel`), and so is a division by zero
  (`DivisionByZero`), as Python floats raise it; numpy scalars instead go on
  with `inf`/`nan` (see "Left out").
- Python subclasses are modelled by composition. `ALDideal` and `ALDsoft`
  hold a `SurfaceKinetics` in `base`. `WellStirred`, `ParticlePlugFlow` and
  `ZeroD` hold an `IdealDoseModel` in `dose`.

In a few places the code is evidently wrong. The model follows the code as
written, lists those places under "Findings", and uses the corrected
behaviour everywhere else.

## Model

| member | source | states |
|---|---|---|
| Solvers.BoundedNewton | src/aldsim/solvers.py:12-29 | the loop computes exactly `Solve`, the recursive specification of the nested damped iteration started at 0.5; a converged result lies in [0, 1] |
| Solvers.InnerStep | src/aldsim/solvers.py:22-26 | one inner retry halves `damp` before the trial step and reuses the same `f(t)` and `f'(t)`; an inadmissible trial retries with that halved damping |
| Solvers.OuterConvergesInUnit | src/aldsim/solvers.py:19-29 | from an iterate in [0, 1], every root the outer loop returns is in [0, 1] and is a damped Newton step (damping at most 0.05, nonzero slope) from an iterate in [0, 1] whose relative change is at most 1e-6 |
| Solvers.InnerConvergesInUnit | src/aldsim/solvers.py:24-28 | every iterate the inner loop accepts, and so every root it leads to, lies in [0, 1] inclusive, and the returned root is a damped Newton step from an iterate in [0, 1] with relative change at most 1e-6 |
| Solvers.SolveConvergesInUnit | src/aldsim/solvers.py:16-29 | starting from 0.5, a converged solve returns a value in [0, 1] that the last damped Newton step reached with a relative change of at most 1e-6 |
| Solvers.TrialDamp | src/aldsim/solvers.py:18-25 | the k-th trial damping 0.1/2^(k+1) is positive and at most 0.05, so the first trial uses 0.05 |
| Solvers.InnerAcceptsFirstAdmissibleFrom | src/aldsim/solvers.py:23-28 | the inner loop accepts the first admissible trial, with damping 0.1/2^(k+1), whatever the trials before it were |
| Solvers.OuterAcceptsFirstAdmissibleTrial | src/aldsim/solvers.py:20-28 | one outer step evaluates f and f' once, restarts damping at 0.1, and goes on from the first admissible trial |
| Solvers.TrialShift | src/aldsim/solvers.py:26 | proof helper for `InteriorIterateHasAdmissibleTrial`: regroups the trial `t - damp*f_t/fp_t` as `t - damp*(f_t/fp_t)`; it states no property of the solver of its own |
| Solvers.InteriorIterateHasAdmissibleTrial | src/aldsim/solvers.py:24-26 | from an iterate strictly inside (0, 1), some halving of the damping gives an admissible trial, so the inner loop can stop |
| Solvers.InnerFromZeroNeverConverges | src/aldsim/solvers.py:27 | for callbacks that raise on a division by zero (Python floats), an outer step at t = 0 never converges, because the relative change divides by t |
| Solvers.AcceptedZeroNeverConverges | src/aldsim/solvers.py:19-27 | for callbacks that raise on a division by zero (Python floats), accepting the iterate 0 ends in a division by zero or in running out of fuel, never in convergence |
| ParticleBatchWellMixed.ResidualVanishesExactlyAtImplicitTime | src/aldsim/core/ideal/particle/batch/wellmixed.py:102-103 | the residual `t - log(1-t)/Da - tau` is zero at theta exactly when tau is the dose time `theta - log(1-theta)/Da` of coverage theta |
| ParticleBatchWellMixed.Residual | src/aldsim/core/ideal/particle/batch/wellmixed.py:102-103 | as a solver callback the residual divides by zero at every iterate when Da = 0 and is `ResidualAt` otherwise |
| ParticleBatchWellMixed.Slope | src/aldsim/core/ideal/particle/batch/wellmixed.py:102-104 | as a solver callback the derivative divides by zero exactly where `Da*(1-t)` is 0 and is `SlopeAt` elsewhere |
| ParticleBatchWellMixed.SlopeAt | src/aldsim/core/ideal/particle/batch/wellmixed.py:48-49 | the Newton slope `1 + 1/(Da(1-θ))` is > 1 when Da > 0 and θ < 1 |
| ParticleBatchWellMixed.SlopeDefinedBelowOne | src/aldsim/core/ideal/particle/batch/wellmixed.py:48-49 | below θ = 1 the slope callback is defined and > 1, so a Newton step never divides by zero there |
| ParticleBatchWellMixed.SolveCoverage | src/aldsim/core/ideal/particle/batch/wellmixed.py:102-107 | module `calc_coverage` is the bounded Newton solve of θ - log(1-θ)/Da - τ, and a converged coverage lies in [0, 1] |
| ParticleBatchWellMixed.ImplicitTime | src/aldsim/core/ideal/particle/batch/wellmixed.py:89-93 | the implicit time of coverage θ is a root of the residual `_f_t`, the equation `calc_coverage` solves |
| ParticleBatchWellMixed.StirredRate | src/aldsim/core/ideal/particle/batch/wellmixed.py:51-52 | the rate of change of y is `-(Da*y)` times the utilisation `1/(1+Da*y)` |
| ParticleBatchWellMixed.InverseFormIsStirredRate | src/aldsim/core/ideal/particle/batch/wellmixed.py:51-52 | `-y/(1/Da + y)` equals `-Da*y/(1 + Da*y)` whenever it is defined |
| ParticleBatchWellMixed.Utilisation | src/aldsim/core/ideal/particle/batch/wellmixed.py:69 | the utilisation x satisfies `x * (1 + Da*y) == 1` |
| ParticleBatchWellMixed.StirredRun | src/aldsim/core/ideal/particle/batch/wellmixed.py:54-70 | `run` gives the arange grid, coverage `1 - y_i` and utilisation `1/(1 + Da*y_i)` for every trajectory value, in three arrays of equal length |
| ParticleBatchWellMixed.StirredRunStartsUnreacted | src/aldsim/core/ideal/particle/batch/wellmixed.py:67-70 | with y_0 = 1 the first row is t = 0, coverage 0 and utilisation 1/(1+Da) |
| ParticleBatchWellMixed.ImplicitCurve | src/aldsim/core/ideal/particle/batch/wellmixed.py:89-93 | the implicit curve pairs every coverage on the 0.0001 grid with the time whose residual vanishes |
| ParticleBatchWellMixed.ImplicitCurveStartsAtOrigin | src/aldsim/core/ideal/particle/batch/wellmixed.py:89-93 | the implicit curve starts at τ = 0 and θ = 0, since log(1) = 0 |
| ParticleBatchWellMixed.OutletFraction | src/aldsim/core/ideal/particle/batch/wellmixed.py:95-99 | `fraction_out` pairs the implicit time with the utilisation `1/(1 + Da(1-θ))` on the coverage grid |
| ParticleBatchWellMixed.FractionOutMatchesRun | src/aldsim/core/ideal/particle/batch/wellmixed.py:95-99 | the outlet fraction at θ equals the utilisation `run` reports where the trajectory is y = 1 - θ |
| ParticleBatchWellMixed.WellMixed.constructor | src/aldsim/core/ideal/particle/batch/wellmixed.py:21-22 | stores Da |
| ParticleBatchWellMixed.WellMixed.CalcCoverage | src/aldsim/core/ideal/particle/batch/wellmixed.py:24-43 | a given Da is stored persistently, otherwise the stored Da is used; the result is the Newton solve, in [0, 1] when it converges |
| ParticleBatchWellMixed.WellMixed.Rate | src/aldsim/core/ideal/particle/batch/wellmixed.py:51-52 | `_f` is the well-stirred rate `-Da*y/(1 + Da*y)` |
| ParticleBatchWellMixed.WellMixed.Run | src/aldsim/core/ideal/particle/batch/wellmixed.py:54-70 | `run` meets the stirred-run specification with the stored Da |
| ParticleBatchWellMixed.WellMixed.SaturationCurve | src/aldsim/core/ideal/particle/batch/wellmixed.py:72-87 | the saturation curve is exactly the time and coverage arrays of `run` |
| ParticleBatchWellMixed.WellMixed.SaturationCurveImplicit | src/aldsim/core/ideal/particle/batch/wellmixed.py:89-93 | meets the implicit-curve specification with the stored Da |
| ParticleBatchWellMixed.WellMixed.FractionOut | src/aldsim/core/ideal/particle/batch/wellmixed.py:95-99 | meets the outlet-fraction specification with the stored Da |
| ParticleBatchWellMixed.SaturationCurve | src/aldsim/core/ideal/particle/batch/wellmixed.py:120-122 | the module-level curve is the arange grid with coverage `1 - y_i` |
| ParticleBatchWellMixed.SaturationCurveDouble | src/aldsim/core/ideal/particle/batch/wellmixed.py:110-117 | one point per θ2 on the 0.00001 grid, each the two-pathway time and total coverage with α = Da2/Da1 |
| ParticleBatchWellMixed.SaturationCurveDoubleStartsAtOrigin | src/aldsim/core/ideal/particle/batch/wellmixed.py:110-117 | the two-pathway curve starts at τ = 0 and coverage 0 |
| BatchWellStirred.WellStirred.constructor | src/aldsim/core/ideal/batch/wellstirred.py:6-7 | stores Da |
| BatchWellStirred.WellStirred.CalcCoverage | src/aldsim/core/ideal/batch/wellstirred.py:9-30 | the inline loop is the bounded Newton solve of `_f_t` with slope `_fp_t`; a converged coverage lies in [0, 1] |
| BatchWellStirred.WellStirred.Rate | src/aldsim/core/ideal/batch/wellstirred.py:32-33 | `-y/(1/Da + y)` is the well-stirred rate `-Da*y/(1 + Da*y)` |
| BatchWellStirred.WellStirred.Run | src/aldsim/core/ideal/batch/wellstirred.py:35-40 | coverage `1 - y_i` and utilisation `1/(1 + Da*y_i)` on the arange grid |
| BatchWellStirred.WellStirred.SaturationCurve | src/aldsim/core/ideal/batch/wellstirred.py:42-44 | `run` without the utilisation array |
| BatchWellStirred.WellStirred.SaturationCurveImplicit | src/aldsim/core/ideal/batch/wellstirred.py:46-50 | meets the implicit-curve specification |
| BatchWellStirred.WellStirred.FractionOut | src/aldsim/core/ideal/batch/wellstirred.py:52-56 | meets the outlet-fraction specification, so it agrees with `run` at y = 1 - θ |
| BatchModels.WellStirred.constructor | src/aldsim/models/batch.py:10-11 | stores Da |
| BatchModels.WellStirred.CalcCoverage | src/aldsim/models/batch.py:13-34 | the inline loop is the bounded Newton solve; a converged coverage lies in [0, 1] |
| BatchModels.WellStirred.Rate | src/aldsim/models/batch.py:36-37 | `-Da*y/(1 + Da*y)` equals the inverse form `-y/(1/Da + y)` used by the other well-stirred classes |
| BatchModels.WellStirred.Run | src/aldsim/models/batch.py:39-43 | coverage `1 - y_i` and utilisation `1/(1 + Da*y_i)` on the arange grid |
| BatchModels.WellStirred.SaturationCurve | src/aldsim/models/batch.py:45-47 | the time and coverage of `run` |
| BatchModels.WellStirred.SaturationCurveImplicit | src/aldsim/models/batch.py:49-53 | meets the implicit-curve specification |
| BatchModels.WellStirred.FractionOut | src/aldsim/models/batch.py:55-59 | meets the outlet-fraction specification |
| BatchModels.PlugFlowMixed.constructor | src/aldsim/models/batch.py:64-65 | stores Da |
| BatchModels.PlugFlowMixed.CalcCoverage | src/aldsim/models/batch.py:67-69 | coverage and depletion sum to 1 |
| BatchModels.PlugFlowMixed.SaturationCurve | src/aldsim/models/batch.py:71-75 | element i is `calc_coverage(t_i)` on the grid t_i = i*dt < tmax |
| BatchModels.PlugFlowMixed.Run | src/aldsim/models/batch.py:77-83 | coverage `1 - y` and utilisation `exp(-Da*y)` with y the depletion of `calc_coverage` |
| BatchModels.PlugFlowMixedSoft.constructor | src/aldsim/models/batch.py:89-94 | stores D1, D2, f1, f2 and fixes a with `a*D1 == D2` |
| BatchModels.PlugFlowMixedSoft.Rate | src/aldsim/models/batch.py:96-101 | with f1 = 1 and f2 = 0 the two-pathway rate reduces to `-(1 - exp(-D1*y))` |
| BatchModels.PlugFlowMixedSoft.SaturationCurve | src/aldsim/models/batch.py:103-109 | coverage `f1(1-y1) + f2(1-y1^a)` on the fixed 0.01 grid |
| BatchModels.PlugFlowMixedSoft.Run | src/aldsim/models/batch.py:111-112 | always raises NotImplementedError |
| BatchModels.PlugFlowMixedSoft.CalcCoverage | src/aldsim/models/batch.py:114-115 | always raises NotImplementedError |
| BatchPlugFlow.Depletion | src/aldsim/core/ideal/batch/plugflow.py:79 | Da times the depletion y is `log(1 + (exp(Da) - 1) exp(-Da t))` |
| BatchPlugFlow.Coverage | src/aldsim/core/ideal/batch/plugflow.py:85-87 | module `calc_coverage` is the complement of the depletion |
| BatchPlugFlow.CoverageStartsAtZero | src/aldsim/core/ideal/batch/plugflow.py:85-87 | at t = 0 the depletion is 1 and the coverage 0, using exp(0) = 1 and log(exp(Da)) = Da |
| BatchPlugFlow.PlugCurve | src/aldsim/core/ideal/batch/plugflow.py:59-62 | the coverage at every grid time, in arrays of equal length |
| BatchPlugFlow.PlugRun | src/aldsim/core/ideal/batch/plugflow.py:77-82 | coverage `1 - y` and utilisation `exp(-Da*y)` with y the depletion at every grid time |
| BatchPlugFlow.RunCoverageIsCurve | src/aldsim/core/ideal/batch/plugflow.py:59-87 | the coverage of `run` is the saturation curve |
| BatchPlugFlow.RunStartsUnreacted | src/aldsim/core/ideal/batch/plugflow.py:77-82 | the first row of `run` is t = 0, coverage 0 and utilisation exp(-Da) |
| BatchPlugFlow.PlugFlowMixed.constructor | src/aldsim/core/ideal/batch/plugflow.py:21-22 | stores Da |
| BatchPlugFlow.PlugFlowMixed.CalcCoverage | src/aldsim/core/ideal/batch/plugflow.py:24-43 | a given Da replaces the stored one persistently; coverage and depletion sum to 1 |
| BatchPlugFlow.PlugFlowMixed.SaturationCurve | src/aldsim/core/ideal/batch/plugflow.py:45-62 | meets the plug-flow curve specification with the stored Da |
| BatchPlugFlow.PlugFlowMixed.Run | src/aldsim/core/ideal/batch/plugflow.py:64-82 | meets the plug-flow run specification with the stored Da |
| ContinuousPlugFlow.Coverage | src/aldsim/core/ideal/particle/continuous/plugflow.py:87-92 | at t = 1 the coverage is Da/(1 + Da) |
| ContinuousPlugFlow.Precursor | src/aldsim/core/ideal/particle/continuous/plugflow.py:94-99 | at t = 1 the precursor fraction is 1 minus the coverage |
| ContinuousPlugFlow.SingularAtUnitTime | src/aldsim/core/ideal/particle/continuous/plugflow.py:88-92 | the general formula's denominator vanishes at t = 1, which is why that case is a separate branch |
| ContinuousPlugFlow.SumAtUnitTime | src/aldsim/core/ideal/particle/continuous/plugflow.py:88-96 | at t = 1 coverage and precursor sum to 1 |
| ContinuousPlugFlow.SumOffUnitTime | src/aldsim/core/ideal/particle/continuous/plugflow.py:90-99 | off t = 1 the two fractions share a denominator and their sum is `1 - (1-t)(1 - exp(-Da(1-t)))/(1 - t*exp(-Da(1-t)))` |
| ContinuousPlugFlow.StartsUncoated | src/aldsim/core/ideal/particle/continuous/plugflow.py:90-99 | at t = 0 the coverage is 0 and the precursor fraction exp(-Da), whatever exp is |
| ContinuousPlugFlow.PlugFlowSpatial.constructor | src/aldsim/core/ideal/particle/continuous/plugflow.py:26-27 | stores Da |
| ContinuousPlugFlow.PlugFlowSpatial.CalcCoverage | src/aldsim/core/ideal/particle/continuous/plugflow.py:29-48 | a given Da is stored persistently and the coverage is computed with the resulting Da |
| ContinuousPlugFlow.PlugFlowSpatial.Run | src/aldsim/core/ideal/particle/continuous/plugflow.py:50-66 | coverage and precursor at every grid time, three arrays of equal length |
| ContinuousPlugFlow.PlugFlowSpatial.SaturationCurve | src/aldsim/core/ideal/particle/continuous/plugflow.py:68-84 | the saturation curve's times and coverage are those of `run` |
| ContinuousPlugFlow.SaturationCurve | src/aldsim/core/ideal/particle/continuous/plugflow.py:102-104 | the module-level curve is the coverage at every grid time |
| SoftBatch.ConsumptionAddsPathways | src/aldsim/core/softsat/batch.py:18 | the consumption `dec` is the first pathway's alone plus the second's alone, and at y = 1 it is `f1*D1 + f2*D2` |
| SoftBatch.PlugSoftRate | src/aldsim/core/softsat/batch.py:14-19 | the rate times `dec` is `-(D1*y)*(1 - exp(-dec))` |
| SoftBatch.SinglePathwayPlugRate | src/aldsim/core/softsat/batch.py:14-19 | with f1 = 1 and f2 = 0 the consumption is D1*y and the rate reduces to `-(1 - exp(-D1*y))` |
| SoftBatch.SoftCoverageSinglePathway | src/aldsim/core/softsat/batch.py:24-26 | with f2 = 0 the coverage is `f1*(1 - y1)`, the reacted fraction 1 - y1 when f1 = 1 |
| SoftBatch.SoftCoverageStartsAtZero | src/aldsim/core/softsat/batch.py:24-26 | the soft coverage is 0 at y1 = 1 |
| SoftBatch.SoftCurve | src/aldsim/core/softsat/batch.py:21-27 | times on the fixed 0.01 grid and coverage `f1(1-y1) + f2(1-y1^a)` for every trajectory value |
| SoftBatch.SoftCurveStartsAtOrigin | src/aldsim/core/softsat/batch.py:21-27 | with y1_0 = 1 the curve starts at t = 0 and coverage 0 |
| SoftBatch.PlugFlowMixedNonD.constructor | src/aldsim/core/softsat/batch.py:7-12 | stores D1, D2, f1, f2 and fixes a with `a*D1 == D2` |
| SoftBatch.PlugFlowMixedNonD.Rate | src/aldsim/core/softsat/batch.py:14-19 | with f1 = 1 and f2 = 0 the rate is the single-pathway plug-flow rate |
| SoftBatch.PlugFlowMixedNonD.SaturationCurve | src/aldsim/core/softsat/batch.py:21-27 | meets the soft-curve specification for any tmax, on the grid of fixed step 0.01 |
| SoftBatch.PlugFlowMixedNonD.Run | src/aldsim/core/softsat/batch.py:29-30 | always raises NotImplementedError |
| SoftBatch.PlugFlowMixedNonD.CalcCoverage | src/aldsim/core/softsat/batch.py:32-33 | always raises NotImplementedError |
| SoftWellStirred.RunCoverageIsSoftCoverage | src/aldsim/core/softsat/batch/wellstirred.py:29-35 | the total coverage of `run` is `f1(1-y1) + f2(1-y1^a)` |
| SoftWellStirred.RunStartsUncoated | src/aldsim/core/softsat/batch/wellstirred.py:29-34 | at y1 = 1 all coverages are 0 and the utilisation is 1/(1 + f1 + f2) |
| SoftWellStirred.WellStirred.constructor | src/aldsim/core/softsat/batch/wellstirred.py:9-14 | stores D1, D2, f1, f2 and fixes a with `a*D1 == D2` |
| SoftWellStirred.WellStirred.Rate | src/aldsim/core/softsat/batch/wellstirred.py:16-21 | with f1 = 1 and f2 = 0 `_f` is the single-pathway well-stirred rate |
| SoftWellStirred.WellStirred.Run | src/aldsim/core/softsat/batch/wellstirred.py:27-35 | per-pathway coverages, total coverage and utilisation for every trajectory value, all of equal length |
| SoftWellStirred.WellStirred.SaturationCurve | src/aldsim/core/softsat/batch/wellstirred.py:23-25 | the time and total coverage of `run` |
| SoftWellStirred.WellStirred.CalcCoverage | src/aldsim/core/softsat/batch/wellstirred.py:37-38 | always raises NotImplementedError |
| NondimSoftPlugFlow.PlugFlowMixed.constructor | src/aldsim/nondim/softsat/batch/plugflow.py:9-14 | stores D1, D2, f1, f2 and fixes a with `a*D1 == D2` |
| NondimSoftPlugFlow.PlugFlowMixed.Rate | src/aldsim/nondim/softsat/batch/plugflow.py:16-21 | the same rate as the plug-flow soft rate, reducing to `-(1 - exp(-D1*y))` for one pathway |
| NondimSoftPlugFlow.PlugFlowMixed.SaturationCurve | src/aldsim/nondim/softsat/batch/plugflow.py:23-28 | meets the soft-curve specification on the fixed 0.01 grid |
| NondimSoftPlugFlow.PlugFlowMixed.Run | src/aldsim/nondim/softsat/batch/plugflow.py:30-31 | always raises NotImplementedError |
| NondimSoftPlugFlow.PlugFlowMixed.CalcCoverage | src/aldsim/nondim/softsat/batch/plugflow.py:33-34 | always raises NotImplementedError |
| DoseBatch.WellStirredND.constructor | src/aldsim/models/dose/batch.py:13-14 | stores Da |
| DoseBatch.WellStirredND.CalcCoverage | src/aldsim/models/dose/batch.py:16-37 | the inline loop is the bounded Newton solve; a converged coverage lies in [0, 1] |
| DoseBatch.WellStirredND.Rate | src/aldsim/models/dose/batch.py:39-40 | `_f` is the well-stirred rate `-Da*y/(1 + Da*y)` |
| DoseBatch.WellStirredND.Run | src/aldsim/models/dose/batch.py:42-47 | coverage `1 - y_i` and utilisation `1/(1 + Da*y_i)` on the arange grid |
| DoseBatch.WellStirredND.SaturationCurve | src/aldsim/models/dose/batch.py:49-51 | the time and coverage of `run` |
| DoseBatch.WellStirredND.SaturationCurveImplicit | src/aldsim/models/dose/batch.py:53-57 | meets the implicit-curve specification |
| DoseBatch.WellStirredND.FractionOut | src/aldsim/models/dose/batch.py:59-63 | meets the outlet-fraction specification |
| DoseBatch.PlugFlowMixedND.constructor | src/aldsim/models/dose/batch.py:131-132 | stores Da |
| DoseBatch.PlugFlowMixedND.CalcCoverage | src/aldsim/models/dose/batch.py:134-136 | coverage and depletion sum to 1 |
| DoseBatch.PlugFlowMixedND.SaturationCurve | src/aldsim/models/dose/batch.py:138-142 | element i is `calc_coverage(t_i)` on the arange grid |
| DoseBatch.PlugFlowMixedND.Run | src/aldsim/models/dose/batch.py:144-150 | coverage `1 - y` equal to `calc_coverage(t_i)` and utilisation `exp(-Da*y)` |
| DoseBatch.CarrierFlow | src/aldsim/models/dose/batch.py:76-77 | the flow is the ideal-gas volume of `flow0` sccm: `flow * p0 * 300 == (1e-6*flow0/60)*1e5*T` |
| DoseBatch.MolecularFlowIndependentOfState | src/aldsim/models/dose/batch.py:76-77 | the molecule rate `flow * p0/(kb T)` is the same for every p0 and T, that of `flow0` cm^3/min at 1e5 Pa and 300 K, where the flow is `flow0*1e-6/60` m^3/s |
| DoseBatch.ZeroFlowAtZeroTemperature | src/aldsim/models/dose/batch.py:76-77 | at T = 0 the flow is 0 |
| DoseBatch.DoseDa | src/aldsim/models/dose/batch.py:79-81 | Da times the flow is `0.25*S*beta*vth` |
| DoseBatch.DaIsConsumptionOverSupply | src/aldsim/models/dose/batch.py:79-81 | Da times the supply rate `flow * p/(kb T)` is the consumption `S * Jwall(T, p) * beta` of the area S |
| DoseBatch.DoseT0 | src/aldsim/models/dose/batch.py:83-84 | t0 times `flow*site_area*p` is `kb*T*S` |
| DoseBatch.T0DeliversOneMoleculePerSite | src/aldsim/models/dose/batch.py:83-116 | in time t0 the flow carries `S/site_area` precursor molecules at density `p/(kb T)`, one per site |
| DoseBatch.WellStirred.constructor | src/aldsim/models/dose/batch.py:68-74 | builds the dose state and a `WellStirredND` whose Da is `Da()` |
| DoseBatch.WellStirred.Flow | src/aldsim/models/dose/batch.py:76-77 | for T != 0, `flow() * p0/(kb T)` is the reference-state molecule rate, whatever p0 and T |
| DoseBatch.WellStirred.Da | src/aldsim/models/dose/batch.py:79-81 | T != 0, and when vth is the precursor's thermal velocity at T, `Da() * flow() * p/(kb T) == S * Jwall(T, p) * beta()` |
| DoseBatch.WellStirred.T0 | src/aldsim/models/dose/batch.py:83-84 | T != 0 and `t0() * flow() * p/(kb T) == S/site_area`: in t0 the flow delivers one molecule per site |
| DoseBatch.WellStirred.SaturationCurve | src/aldsim/models/dose/batch.py:79-89 | refreshes the delegate's Da to `Da()` (beta at zero coverage), then returns its curve with time multiplied by t0 and coverage unchanged |
| DoseBatch.WellStirred.Run | src/aldsim/models/dose/batch.py:79-94 | refreshes the delegate's Da, then returns its run with time multiplied by t0 and coverage and utilisation unchanged |
| DoseBatch.ParticlePlugFlow.constructor | src/aldsim/models/dose/batch.py:100-106 | builds the dose state and a `PlugFlowMixedND` whose Da is `Da()` |
| DoseBatch.ParticlePlugFlow.Flow | src/aldsim/models/dose/batch.py:108-109 | for T != 0, `flow() * p0/(kb T)` is the reference-state molecule rate, whatever p0 and T |
| DoseBatch.ParticlePlugFlow.Da | src/aldsim/models/dose/batch.py:111-113 | T != 0, and when vth is the precursor's thermal velocity at T, `Da() * flow() * p/(kb T) == S * Jwall(T, p) * beta()` |
| DoseBatch.ParticlePlugFlow.T0 | src/aldsim/models/dose/batch.py:115-116 | T != 0 and `t0() * flow() * p/(kb T) == S/site_area`: in t0 the flow delivers one molecule per site |
| DoseBatch.ParticlePlugFlow.SaturationCurve | src/aldsim/models/dose/batch.py:111-121 | refreshes the delegate's Da, then rescales its curve's time by t0 |
| DoseBatch.ParticlePlugFlow.Run | src/aldsim/models/dose/batch.py:111-126 | refreshes the delegate's Da, then rescales its run's time by t0 |
| DoseIdealBase.IdealDoseModel.constructor | src/aldsim/dose/ideal/base.py:4-7 | stores chem, p and T, with vth equal to the precursor's thermal velocity at T |
| DoseIdealBase.IdealDoseModel.SetT | src/aldsim/dose/ideal/base.py:13-16 | setting T refreshes vth to `chem.vth(T)` and leaves p alone |
| DoseIdealBase.IdealDoseModel.SetP | src/aldsim/dose/ideal/base.py:34-40 | setting p changes only p; T and vth are untouched |
| DoseIdealBase.IdealDoseModel.SiteArea | src/aldsim/dose/ideal/base.py:22-24 | reads the kinetics' site area |
| DoseIdealBase.IdealDoseModel.SetSiteArea | src/aldsim/dose/ideal/base.py:26-28 | writes through to the kinetics, which recomputes nsites and keeps `site_area * nsites == f`; the dose state is untouched |
| DoseIdealBase.IdealDoseModel.MassAsWritten | src/aldsim/dose/ideal/base.py:30-32 | as written, `mass` raises AttributeError, because `self.prec` is never assigned |
| DoseIdealBase.IdealDoseModel.Mass | src/aldsim/dose/ideal/base.py:30-32 | the evidently intended mass, the precursor's, is the mass vth is computed from |
| ZeroD.BindAsWritten | src/aldsim/dose/ideal/zerod.py:8-9 | as written, T goes into the p slot and p into the T slot; a missing key raises KeyError |
| ZeroD.Bind | src/aldsim/dose/ideal/zerod.py:8-9 | the corrected binding passes p as p and T as T; a missing key raises KeyError |
| ZeroD.AsWrittenSwapsPressureAndTemperature | src/aldsim/dose/ideal/zerod.py:9 | with p = 10 and T = 450 the code as written builds a model at p = 450 and T = 10 |
| ZeroD.AsWrittenAgreesOnlyOnEqualValues | src/aldsim/dose/ideal/zerod.py:9 | the as-written binding is right exactly when p and T have the same value |
| ZeroD.SiteRate | src/aldsim/dose/ideal/zerod.py:13 | nu is `site_area * (n*vth/4) * beta0` with `n = p/(kb T)`: the site area times the wall flux times beta0 |
| ZeroD.FirstOrderCoverageBounds | src/aldsim/dose/ideal/zerod.py:17 | the coverage `1 - exp(-t/t0)` is 0 at t = 0 and below 1 at every t |
| ZeroD.HundredthGrid | src/aldsim/dose/ideal/zerod.py:15-16 | the grid of step t0/100 below 5*t0 has 500 points |
| ZeroD.ZeroD.constructor | src/aldsim/dose/ideal/zerod.py:8-9 | builds a dose model at the supplied p and T, with vth at that T |
| ZeroD.ZeroD.NuIsKineticRate | src/aldsim/dose/ideal/zerod.py:13-14 | nu is `site_area * Jwall(T, p) * beta0`, so t0 = 1/nu is the kinetics' `t0(T, p)` |
| ZeroD.ZeroD.SaturationCurve | src/aldsim/dose/ideal/zerod.py:11-18 | 500 points, t_i = i*t0/100 < 5*t0 and cov_i = 1 - exp(-t_i/t0) |
| ZeroD.ZeroD.SaturationCurveStartsAtZero | src/aldsim/dose/ideal/zerod.py:16-17 | the curve starts at t = 0 with coverage 0 |
| Chem.NewPrecursor | src/aldsim/chem.py:8-24 | a given mass is used; otherwise the mass comes from the table, and a name not in the table raises KeyError |
| Chem.PrecursorTable | src/aldsim/chem.py:8-24 | TMA has mass 144.17, H2O 18.01, and the default name 'None' raises KeyError |
| Chem.Precursor.VthOfScaledPrecursor | src/aldsim/chem.py:26-28 | `vth(T)` is `calc_vth(mass, T)`, so a precursor k times heavier at k times the temperature has the same thermal velocity |
| Chem.NumberDensity | src/aldsim/chem.py:35 | `n * kb * T == p`: the ideal-gas number density |
| Chem.Precursor.Jwall | src/aldsim/chem.py:30-35 | the wall flux is the kinetic-theory `n*vth/4` with `n = p/(kb T)` |
| Chem.SurfaceKinetics.constructor | src/aldsim/chem.py:47-50 | stores f and nsites and sets `site_area = f/nsites`, so `site_area * nsites == f` |
| Chem.SurfaceKinetics.SetSiteArea | src/aldsim/chem.py:57-60 | sets site_area, recomputes `nsites = f/site_area` and keeps the invariant |
| Chem.SurfaceKinetics.SetNsites | src/aldsim/chem.py:67-70 | sets nsites, recomputes `site_area = f/nsites` and keeps the invariant |
| Chem.SurfaceKinetics.SetF | src/aldsim/chem.py:82-85 | sets f, keeps site_area, recomputes `nsites = f/site_area` and keeps the invariant |
| Chem.SurfaceKinetics.NsitesMol | src/aldsim/chem.py:72-75 | the site density in mol times Avogadro's number is nsites |
| Chem.SurfaceKinetics.FAsWritten | src/aldsim/chem.py:77-80 | as written, the `f` getter returns None |
| Chem.ALDideal.constructor | src/aldsim/chem.py:106-109 | stores beta0 and dm and sets up the base kinetics with `site_area = f/nsites` |
| Chem.ALDideal.BetaAsWritten | src/aldsim/chem.py:77-112 | as written, `beta` multiplies None and raises TypeError |
| Chem.ALDideal.Beta | src/aldsim/chem.py:111-115 | the corrected `beta(cov)` is `beta_av(1 - cov)`, 0 at full coverage |
| Chem.ALDideal.BetaAvScalesBareSurface | src/aldsim/chem.py:111-115 | `beta_av(av)` is the bare-surface `beta(0)` times av, and 0 when nothing is available |
| Chem.ALDideal.T0 | src/aldsim/chem.py:117-119 | t0 times `site_area * Jwall * beta0` is 1 |
| Chem.ALDsoft.constructor | src/aldsim/chem.py:143-151 | f2 defaults to 1 - f1, the base fraction is f1 + f2, and without f2 it is 1 with `site_area = 1/nsites` |
| Chem.ALDsoft.Beta | src/aldsim/chem.py:153-157 | `beta(c1, c2)` is `beta_av(1 - c1, 1 - c2)`, 0 when both pathways are saturated |
| Chem.ALDsoft.BetaAvSplitsByPathway | src/aldsim/chem.py:156-157 | `beta_av(av1, av2)` is the sum of the two pathways' contributions, each proportional to its own available fraction |
| Chem.ALDsoft.T0 | src/aldsim/chem.py:159-163 | each pathway's t0 times `site_area * Jwall * beta_i` is 1 |
| AldChem.DefaultPrecursor | src/aldsim/aldchem.py:3-8 | `Precursor()` has name 'None' and M = 100 |
| AldChem.ALDKinetics.constructor | src/aldsim/aldchem.py:15-18 | sets `site_area = f/nsites` and beta = beta0 |
| AldChem.ALDKinetics.SetSiteArea | src/aldsim/aldchem.py:24-27 | sets site_area, recomputes `nsites = f/site_area` and keeps `site_area * nsites == f` |
| AldChem.ALDKinetics.SetNsites | src/aldsim/aldchem.py:33-36 | sets nsites, recomputes `site_area = f/nsites` and keeps the invariant |
| AldChem.ALDKinetics.SetF | src/aldsim/aldchem.py:16-36 | f is a plain attribute: assigning it refreshes neither site_area nor nsites, and the invariant holds afterwards exactly when the new f is the old product |
| AldChem.SiteAreaScenario | src/aldsim/aldchem.py:15-36 | nsites 1e19 gives site_area 1e-19; then site_area 1e-18 gives nsites 1e18 |
| AldChem.ReadAttribute | src/aldsim/aldchem.py:49 | reading an attribute that was never assigned raises AttributeError |
| AldChem.SoftSaturatingAsWritten | src/aldsim/aldchem.py:44-52 | as written, the constructor always raises AttributeError |
| AldChem.SoftSaturating.constructor | src/aldsim/aldchem.py:44-52 | the corrected constructor: f2 defaults to 1 - f1, f = f1 + f2 and `site_area * nsites == f` |
| AldChem.ALDChem.constructor | src/aldsim/aldchem.py:57-64 | without dm: default_dm is set and dm = 1; with dm: dm is stored and default_dm stays unset |
| AldUtils.SiteAreaFromGpc | src/aldutils.py:10-36 | the same value as the aldsim version with the arguments reordered |
| AldUtils.SiteAreaFromQcm | src/aldutils.py:39-61 | the same value as the aldsim version with the arguments reordered |
| AldUtils.SiteAreaFromRbs | src/aldutils.py:63-83 | the same value as the aldsim version |
| AldUtils.ALDchem.constructor | src/aldutils.py:99-105 | stores p, M, beta0, s0 and T and computes the derived fields |
| AldUtils.ALDchem.Update | src/aldutils.py:108-112 | the derived fields become `vth = calc_vth(M, T)`, `alpha = 0.25 vth beta0`, `n0 = p/(kb T)`, `nu0 = alpha s0 n0`; base fields unchanged |
| AldUtils.ALDchem.SetS0 | src/aldutils.py:119-122 | changes only s0 among the base fields, then refreshes the derived ones |
| AldUtils.ALDchem.SetM | src/aldutils.py:128-131 | changes only M among the base fields, then refreshes the derived ones |
| AldUtils.ALDchem.SetBeta0 | src/aldutils.py:137-140 | changes only beta0 among the base fields, then refreshes the derived ones |
| AldUtils.ALDchem.SetT | src/aldutils.py:146-149 | changes only T among the base fields, then refreshes the derived ones |
| AldUtils.ALDchem.SetP | src/aldutils.py:155-158 | changes only p among the base fields, then refreshes the derived ones |
| AldUtils.ALDchem.FromQcm | src/aldutils.py:160-162 | stores mpc and sets s0 to the QCM site area through the setter, so the derived fields are refreshed |
| AldsimUtils.VthDependsOnTemperatureOverMass | src/aldsim/aldutils.py:8-19 | `calc_vth(M, T)` depends on M and T only through T/M: scaling both by k != 0 leaves it unchanged |
| AldsimUtils.SiteAreaFromGpc | src/aldsim/aldutils.py:22-48 | nmol sites of the returned area tile 1 cm^2 once per deposited formula unit |
| AldsimUtils.SiteAreaFromQcm | src/aldsim/aldutils.py:51-73 | the site area times `mpc * 1e-5 * 6.022e23 * nmol` is M |
| AldsimUtils.SiteAreaFromRbs | src/aldsim/aldutils.py:75-95 | the site area times the areal density of atoms is the atoms per molecule |
| AldsimUtils.GpcHalvesWithDoubleNmol | src/aldsim/aldutils.py:48 | doubling nmol halves the site area from growth per cycle |
| AldsimUtils.QcmHalvesWithDoubleNmol | src/aldsim/aldutils.py:73 | doubling nmol halves the site area from QCM mass per cycle |
| Units.Conversion.Apply | src/aldsim/units.py:9-15 | no factors is the identity; otherwise multiply by c_mul first, then add c_add |
| Units.OppositeOffsetsCancel | src/aldsim/units.py:18-21 | adding d and then -d gives the value back |
| Units.Temperature | src/aldsim/units.py:23-27 | equal units return the value; otherwise the table's conversion applies, and a pair not in the table raises KeyError |
| Units.CelsiusKelvinOffsets | src/aldsim/units.py:19-23 | C to K adds 273.15, K to C subtracts it |
| Units.CelsiusRoundTrip | src/aldsim/units.py:19-27 | C to K to C is the identity over the reals |
| Units.FahrenheitIsUnknown | src/aldsim/units.py:18-27 | a unit pair not in the table raises KeyError |
| Units.ConversionAndTemperatureExamples | tests/test_units.py:6-22 | the example values: identity, factor 0.5, offset -1, 100 C is 373.15 K and back, and K to K unchanged |

## Left out

- ODE integration (`ode_solver` in src/aldsim/solvers.py:5-9 and every `solve_ivp` call): an adaptive floating-point integrator; its trajectory is an input sequence `ys` sampled on the arange grid, with `y_0 = 1` where a lemma needs it.
- AldsimUtils.CalcVth: `math.sqrt` in src/aldsim/aldutils.py:19 raises ValueError when `T/M < 0` (for example `calc_vth(144.17, -1.0)`), and so do `Precursor.vth` and the `T` setter of src/aldsim/dose/ideal/base.py:15 that call it; `np.sqrt` in src/aldutils.py:7 returns NaN instead. Neither is modelled: `Sqrt` is total, so `CalcVth`, `Chem.Precursor.Vth`, `DoseIdealBase.IdealDoseModel.constructor`/`SetT` and `AldUtils.ALDchem.Update` succeed at a negative `T/M`.
- Accuracy of `exp`, `log`, `float_power` and `sqrt`, overflow of `exp(Da)`, and convergence rates: the functions are uninterpreted with the five laws above, and no monotonicity or limit of a curve is claimed.
- Floating-point behaviour: the exact length of `np.arange` under rounding, damping underflow, and numpy's `inf`/`nan` results of a division by zero, in arrays and in numpy scalars alike (see `Solvers.BoundedNewton` below). Reals are exact, and a divisor that may vanish is a `requires`.
- Solvers.BoundedNewton: the Python loops have no iteration cap; the model has a fuel bound and an `OutOfFuel` outcome, because an unbounded loop cannot be proved to terminate.
- Solvers.BoundedNewton: a division by zero ends the run in `DivisionByZero`, which is what a ZeroDivisionError on Python floats does. The residuals the callers pass use `np.log`, so from the first step on every iterate is a numpy scalar, and numpy divisions by zero give `inf`/`nan` instead of raising. An accepted iterate of exactly 1 makes `fp_t` infinite and `tn` NaN; both loop tests are then false, and Python returns NaN. An accepted iterate of 0 gives `ep = inf`, so the loop goes on, or `ep = nan` when `tn` is 0 too, so the loop returns 0. The model does not capture these IEEE results: `DivisionByZero` stands for all of them, and the lemmas about it hold for callbacks that raise.
- Scalar divisions by zero (`ZeroDivisionError`) in the closed forms, `t0`, `flow`, `Da` and the site-area conversions are preconditions rather than error results.
- ZeroD.ZeroD.constructor: a missing `p` or `T` keyword is a precondition; `ZeroD.Bind` and `ZeroD.BindAsWritten` model the KeyError.
- ZeroD.ZeroD.SaturationCurve: requires nu > 0, which makes the grid step positive; the `print(kb)` side effect is left out.
- Automatic `tmax` selection and `ALDideal.saturation_curve`/`ALDsoft.saturation_curve` (src/aldsim/chem.py:121-180): they use `log10` with int truncation and `print`.
- `ALDProcess` (src/aldsim/chem.py:184-202): a container with no behaviour beyond storing its arguments.
- src/aldsim/chem.py:4 imports `Rgas` from src/aldsim/constants.py, which does not define it. Importing chem.py therefore raises ImportError, and `Precursor`, `SurfaceKinetics`, `ALDideal` and `ALDsoft` cannot be used as written. The model assumes the import succeeds.
- `Precursor.Jwall` with `in_mols=True` (src/aldsim/chem.py:32-33): the only use of the missing `Rgas`.
- src/aldsim/models/dose/batch.py:8 imports `IdealDoseModel` from src/aldsim/models/dose/base.py, which is not part of this model. `DoseBatch.WellStirred` and `DoseBatch.ParticlePlugFlow` hold the `IdealDoseModel` of src/aldsim/dose/ideal/base.py in its place, on the assumption that the two classes agree.
- Precursor `ligands`: stored and never read.
- src/aldsim/aldmodel.py and src/aldsim/core/ideal/particle/continuous/wellmixed.py are not part of this model.
- Classes whose `Da` defaults to `None` take a real `Da`; calling them without one fails on the first arithmetic in the source.
- DoseBatch.WellStirred.SaturationCurve: the well-stirred dose curve and run take the trajectory of the delegate as input.

## Findings

| source | as written | input that shows it | evidently intended | confidence | as-written member | corrected member |
|---|---|---|---|---|---|---|
| src/aldsim/chem.py:77-80 | the `f` getter evaluates `self._f` without returning it, so `self.f` is None and `ALDideal.beta`/`beta_av` raise TypeError; the dose models' `Da()` fails with them | `ALDideal(prec, 1e19, 0.01).beta()` | `return self._f`, so `beta(cov) = f * beta0 * (1 - cov)` | high, not executed | Chem.ALDideal.BetaAsWritten | Chem.ALDideal.Beta |
| src/aldsim/dose/ideal/zerod.py:9 | `ZeroD` passes `kwargs['T']` as p and `kwargs['p']` as T to `IdealDoseModel(chem, p, T)` | `ZeroD(chem, p=10, T=450)` builds a model at p = 450, T = 10 | pass p as p and T as T | high, not executed | ZeroD.AsWrittenSwapsPressureAndTemperature | ZeroD.ZeroD.constructor |
| src/aldsim/aldchem.py:49 | `SoftSaturating.__init__` tests `self.f2` before any assignment to it, which raises AttributeError | `SoftSaturating(1e19, 0.01, 0.001, 0.5)` | test the argument `f2` and store it | high, not executed | AldChem.SoftSaturatingAsWritten | AldChem.SoftSaturating.constructor |
| src/aldsim/dose/ideal/base.py:30-32 | `mass` reads `self.prec`, which `IdealDoseModel` never assigns, so it raises AttributeError | `IdealDoseModel(chem, 10, 450).mass` | the precursor's mass, `self.chem.prec.mass` | medium, not executed | DoseIdealBase.IdealDoseModel.MassAsWritten | DoseIdealBase.IdealDoseModel.Mass |
