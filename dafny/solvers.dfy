/** The bounded damped Newton root finder of src/aldsim/solvers.py.

    The source loops without any iteration cap. Here a `fuel` argument bounds
    the total number of trial steps (each damping retry uses one unit); a run
    that would need more ends in OutOfFuel. A callback returns None when its
    own evaluation divides by zero, and every division by zero ends the run in
    DivisionByZero, as a ZeroDivisionError on Python floats would; numpy
    scalars, which give inf or nan instead, are not modelled. */
module Solvers {
  import opened Common

  type Callback = real -> Option<real>

  datatype Outcome = Converged(root: real) | DivisionByZero | OutOfFuel

  const Tolerance: real := 1e-6
  const InitialGuess: real := 0.5
  const InitialDamp: real := 0.1

  /** The inner loop keeps retrying while `tn > 1 or tn < 0`. */
  predicate Admissible(x: real)
  {
    0.0 <= x <= 1.0
  }

  /** A step from iterate t to tn is small enough to stop the outer loop. */
  predicate Settled(t: real, tn: real)
  {
    t != 0.0 && Abs(t - tn) / t <= Tolerance
  }

  /** The trial iterate `t - damp*f_t/fp_t`. */
  function Trial(t: real, damp: real, ft: real, fpt: real): real
    requires fpt != 0.0
  {
    t - damp * ft / fpt
  }

  // The loop nest as three mutually recursive functions. Outer evaluates f
  // and f' once at the current iterate; Inner halves the damping and retries
  // with the same two values; Accept computes the relative change.

  function Outer(f: Callback, fdot: Callback, t: real, fuel: nat): Outcome
    decreases fuel, 1
  {
    match (f(t), fdot(t))
    case (Some(ft), Some(fpt)) => Inner(f, fdot, t, ft, fpt, InitialDamp, fuel)
    case _ => DivisionByZero
  }

  function Inner(f: Callback, fdot: Callback, t: real, ft: real, fpt: real, damp: real, fuel: nat): Outcome
    decreases fuel, 0
  {
    if fuel == 0 then OutOfFuel
    else if fpt == 0.0 then DivisionByZero
    else
      var d := 0.5 * damp;
      var tn := Trial(t, d, ft, fpt);
      if !Admissible(tn) then Inner(f, fdot, t, ft, fpt, d, fuel - 1)
      else Accept(f, fdot, t, tn, fuel - 1)
  }

  function Accept(f: Callback, fdot: Callback, t: real, tn: real, fuel: nat): Outcome
    decreases fuel, 2
  {
    if t == 0.0 then DivisionByZero
    else if Abs(t - tn) / t > Tolerance then Outer(f, fdot, tn, fuel)
    else Converged(tn)
  }

  /** boundedNewton_solver(f, fdot): the iteration started from 0.5. */
  function Solve(f: Callback, fdot: Callback, fuel: nat): Outcome
  {
    Outer(f, fdot, InitialGuess, fuel)
  }

  /** The nested loops of boundedNewton_solver, proved to compute Solve and to
      return only roots in [0, 1]. */
  method BoundedNewton(f: Callback, fdot: Callback, fuel: nat) returns (r: Outcome)
    ensures r == Solve(f, fdot, fuel)
    ensures r.Converged? ==> 0.0 <= r.root <= 1.0
  {
    var ep := 1.0;
    var t := InitialGuess;
    var damp := InitialDamp;
    var left := fuel;
    while ep > Tolerance
      invariant Admissible(t)
      invariant ep > Tolerance ==> Outer(f, fdot, t, left) == Solve(f, fdot, fuel)
      invariant ep <= Tolerance ==> Converged(t) == Solve(f, fdot, fuel)
      decreases left
    {
      var ft := f(t);
      var fpt := fdot(t);
      if ft.None? || fpt.None? {
        return DivisionByZero;
      }
      damp := InitialDamp;
      var tn := 1.1;
      ghost var start := left;
      while tn > 1.0 || tn < 0.0
        invariant left <= start
        invariant !Admissible(tn) ==> Inner(f, fdot, t, ft.value, fpt.value, damp, left) == Solve(f, fdot, fuel)
        invariant Admissible(tn) ==> left < start && Accept(f, fdot, t, tn, left) == Solve(f, fdot, fuel)
        decreases left
      {
        if left == 0 {
          return OutOfFuel;
        }
        if fpt.value == 0.0 {
          return DivisionByZero;
        }
        InnerStep(f, fdot, t, ft.value, fpt.value, damp, left);
        damp := 0.5 * damp;
        tn := Trial(t, damp, ft.value, fpt.value);
        left := left - 1;
      }
      if t == 0.0 {
        return DivisionByZero;
      }
      ep := Abs(t - tn) / t;
      t := tn;
    }
    r := Converged(t);
  }

  /** One retry of the inner loop, unfolded. */
  lemma InnerStep(f: Callback, fdot: Callback, t: real, ft: real, fpt: real, damp: real, fuel: nat)
    requires fuel != 0 && fpt != 0.0
    ensures var tn := Trial(t, 0.5 * damp, ft, fpt);
            Inner(f, fdot, t, ft, fpt, damp, fuel)
            == if !Admissible(tn) then Inner(f, fdot, t, ft, fpt, 0.5 * damp, fuel - 1)
               else Accept(f, fdot, t, tn, fuel - 1)
  {
  }

  // ----- Properties of the iteration -----

  /** tn is a damped Newton step from the admissible iterate s: both callbacks
      are defined at s, the slope is nonzero, and the damping d is one the
      inner loop can use (0 < d <= 0.05). */
  predicate NewtonStep(f: Callback, fdot: Callback, s: real, d: real, tn: real)
  {
    && Admissible(s) && 0.0 < d <= 0.05
    && f(s).Some? && fdot(s).Some? && fdot(s).value != 0.0
    && tn == Trial(s, d, f(s).value, fdot(s).value)
  }

  /** Every root the iteration converges to is admissible, and it is a damped
      Newton step from an admissible iterate s whose relative change
      |s - root|/s is within the tolerance. */
  lemma {:induction false} OuterConvergesInUnit(f: Callback, fdot: Callback, t: real, fuel: nat)
    requires Admissible(t)
    ensures Outer(f, fdot, t, fuel).Converged? ==>
              var root := Outer(f, fdot, t, fuel).root;
              Admissible(root) && exists s, d :: NewtonStep(f, fdot, s, d, root) && Settled(s, root)
    decreases fuel, 1
  {
    match (f(t), fdot(t))
    case (Some(ft), Some(fpt)) => InnerConvergesInUnit(f, fdot, t, ft, fpt, InitialDamp, fuel);
    case _ =>
  }

  lemma {:induction false} InnerConvergesInUnit(f: Callback, fdot: Callback, t: real, ft: real, fpt: real, damp: real, fuel: nat)
    requires Admissible(t) && f(t) == Some(ft) && fdot(t) == Some(fpt) && 0.0 < damp <= 0.1
    ensures Inner(f, fdot, t, ft, fpt, damp, fuel).Converged? ==>
              var root := Inner(f, fdot, t, ft, fpt, damp, fuel).root;
              Admissible(root) && exists s, d :: NewtonStep(f, fdot, s, d, root) && Settled(s, root)
    decreases fuel, 0
  {
    if fuel != 0 && fpt != 0.0 {
      var d := 0.5 * damp;
      var tn := Trial(t, d, ft, fpt);
      InnerStep(f, fdot, t, ft, fpt, damp, fuel);
      if !Admissible(tn) {
        InnerConvergesInUnit(f, fdot, t, ft, fpt, d, fuel - 1);
      } else if t != 0.0 && Abs(t - tn) / t > Tolerance {
        OuterConvergesInUnit(f, fdot, tn, fuel - 1);
      } else if t != 0.0 {
        assert NewtonStep(f, fdot, t, d, tn) && Settled(t, tn);
      }
    }
  }

  /** The value returned by boundedNewton_solver lies in [0, 1], and the outer
      loop stopped after a damped Newton step whose relative change was at
      most 1e-6. */
  lemma SolveConvergesInUnit(f: Callback, fdot: Callback, fuel: nat)
    ensures Solve(f, fdot, fuel).Converged? ==>
              var root := Solve(f, fdot, fuel).root;
              0.0 <= root <= 1.0 && exists s, d :: NewtonStep(f, fdot, s, d, root) && Settled(s, root)
  {
    OuterConvergesInUnit(f, fdot, InitialGuess, fuel);
  }

  /** 2^n as a real. */
  function Pow2(n: nat): (p: real)
    ensures p >= (n as real) + 1.0
  {
    if n == 0 then 1.0 else 2.0 * Pow2(n - 1)
  }

  /** The damping of the k-th trial (k = 0, 1, ...) of an outer step: reset to
      0.1 and halved before every trial, so 0.05, 0.025, ... */
  function TrialDamp(k: nat): (d: real)
    ensures 0.0 < d <= 0.05
  {
    0.1 / Pow2(k + 1)
  }

  lemma {:induction false} InnerAcceptsFirstAdmissibleFrom(f: Callback, fdot: Callback, t: real, ft: real, fpt: real, j: nat, k: nat, fuel: nat)
    requires fpt != 0.0 && j <= k && k - j < fuel
    requires forall i :: j <= i < k ==> !Admissible(Trial(t, TrialDamp(i), ft, fpt))
    requires Admissible(Trial(t, TrialDamp(k), ft, fpt))
    ensures Inner(f, fdot, t, ft, fpt, 0.1 / Pow2(j), fuel)
            == Accept(f, fdot, t, Trial(t, TrialDamp(k), ft, fpt), fuel - (k - j) - 1)
    decreases k - j
  {
    InnerStep(f, fdot, t, ft, fpt, 0.1 / Pow2(j), fuel);
    assert 0.5 * (0.1 / Pow2(j)) == TrialDamp(j);
    if j < k {
      InnerAcceptsFirstAdmissibleFrom(f, fdot, t, ft, fpt, j + 1, k, fuel - 1);
    }
  }

  /** One outer step evaluates f and f' once, then tries the dampings 0.05,
      0.025, ... with those same values and accepts the first trial iterate
      in [0, 1]; k + 1 units of fuel are spent on it. */
  lemma OuterAcceptsFirstAdmissibleTrial(f: Callback, fdot: Callback, t: real, k: nat, fuel: nat)
    requires f(t).Some? && fdot(t).Some? && fdot(t).value != 0.0 && k < fuel
    requires forall i :: 0 <= i < k ==> !Admissible(Trial(t, TrialDamp(i), f(t).value, fdot(t).value))
    requires Admissible(Trial(t, TrialDamp(k), f(t).value, fdot(t).value))
    ensures Outer(f, fdot, t, fuel)
            == Accept(f, fdot, t, Trial(t, TrialDamp(k), f(t).value, fdot(t).value), fuel - k - 1)
  {
    InnerAcceptsFirstAdmissibleFrom(f, fdot, t, f(t).value, fdot(t).value, 0, k, fuel);
  }

  lemma TrialShift(t: real, d: real, ft: real, fpt: real)
    requires fpt != 0.0
    ensures Trial(t, d, ft, fpt) == t - d * (ft / fpt)
  {
  }

  lemma BelowScaled(a: real, m: real, p: real)
    requires m > 0.0 && a / m < p
    ensures a < m * p
  {
    var x := a / m;
    assert x * m == a;
    assert p * m - x * m == (p - x) * m;
  }

  lemma SmallShift(p: real, r: real, m: real)
    requires p > 0.0 && m > 0.0 && Abs(r) < m * p
    ensures Abs((0.1 / p) * r) < m
  {
    assert Abs((0.1 / p) * r) == 0.1 * (Abs(r) / p);
    assert Abs(r) / p < m by {
      assert (Abs(r) / p) * p == Abs(r);
      if Abs(r) / p >= m {
        MulMonotone(m, Abs(r) / p, p);
      }
    }
  }

  /** From an iterate strictly inside (0, 1) the retry loop always ends: some
      halving of the damping gives an admissible trial. (At the end points 0
      and 1 it need not end.) */
  lemma InteriorIterateHasAdmissibleTrial(t: real, ft: real, fpt: real)
    requires 0.0 < t < 1.0 && fpt != 0.0
    ensures exists k: nat :: Admissible(Trial(t, TrialDamp(k), ft, fpt))
  {
    var r := ft / fpt;
    var m := if t < 1.0 - t then t else 1.0 - t;
    var x := Abs(r) / m;
    var k: nat := x.Floor;
    var p := Pow2(k + 1);
    assert x < p;
    BelowScaled(Abs(r), m, p);
    SmallShift(p, r, m);
    TrialShift(t, TrialDamp(k), ft, fpt);
    assert Admissible(Trial(t, TrialDamp(k), ft, fpt));
  }

  lemma {:induction false} InnerFromZeroNeverConverges(f: Callback, fdot: Callback, ft: real, fpt: real, damp: real, fuel: nat)
    ensures !Inner(f, fdot, 0.0, ft, fpt, damp, fuel).Converged?
    decreases fuel
  {
    if fuel != 0 && fpt != 0.0 {
      InnerStep(f, fdot, 0.0, ft, fpt, damp, fuel);
      if !Admissible(Trial(0.0, 0.5 * damp, ft, fpt)) {
        InnerFromZeroNeverConverges(f, fdot, ft, fpt, 0.5 * damp, fuel - 1);
      }
    }
  }

  /** Once 0 is accepted as an iterate, the next relative-change test divides
      by zero: the run can no longer converge. */
  lemma AcceptedZeroNeverConverges(f: Callback, fdot: Callback, t: real, fuel: nat)
    requires t > 0.0
    ensures Accept(f, fdot, t, 0.0, fuel) == DivisionByZero || Accept(f, fdot, t, 0.0, fuel) == OutOfFuel
  {
    assert Abs(t - 0.0) / t == 1.0;
    match (f(0.0), fdot(0.0))
    case (Some(ft), Some(fpt)) => InnerFromZeroNeverConverges(f, fdot, ft, fpt, InitialDamp, fuel);
    case _ =>
  }
}
