/** Shared vocabulary of the model: optional values, the exceptions the
    Python code raises, the elementary functions (left uninterpreted), and
    the evenly spaced grids that `np.arange(0, stop, step)` produces. */
module Common {

  datatype Option<T> = None | Some(value: T)

  /** The Python exceptions that the modelled code can raise. */
  datatype Error =
    | KeyError
    | AttributeError
    | TypeError
    | NotImplementedError

  datatype Result<T> = Ok(value: T) | Err(error: Error)

  /** A saturation curve: time array and coverage array. */
  datatype Curve = Curve(t: seq<real>, cov: seq<real>)

  /** What `run` returns: time, coverage and precursor utilisation arrays. */
  datatype Profile = Profile(t: seq<real>, cov: seq<real>, x: seq<real>)

  // exp, log, float_power and sqrt as uninterpreted functions: nothing about
  // their values is known except what a lemma explicitly assumes via Laws().
  const Exp: real -> real
  const Log: real -> real
  const Pow: (real, real) -> real
  const Sqrt: real -> real

  /** The only facts about the elementary functions the model relies on. */
  ghost predicate Laws()
  {
    && (forall x :: Exp(x) > 0.0)
    && Exp(0.0) == 1.0
    && Log(1.0) == 0.0
    && (forall x :: Log(Exp(x)) == x)
    && (forall a :: Pow(1.0, a) == 1.0)
  }

  function Abs(x: real): (r: real)
    ensures r >= 0.0 && (r == x || r == -x)
  {
    if x < 0.0 then -x else x
  }

  lemma {:induction false} MulMonotone(a: real, b: real, c: real)
    requires a <= b && c > 0.0
    ensures a * c <= b * c
  {
    assert b * c - a * c == (b - a) * c;
  }

  /** Number of points of `np.arange(0, stop, step)` over the reals: the
      least n with n * step >= stop. */
  function GridSize(stop: real, step: real): (n: nat)
    requires step > 0.0
    ensures n > 0 ==> ((n - 1) as real) * step < stop
    ensures (n as real) * step >= stop
  {
    if stop <= 0.0 then 0
    else
      var x := stop / step;
      assert x * step == stop;
      var k := x.Floor;
      assert 0 <= k;
      if (k as real) * step < stop then
        assert ((k + 1) as real) > x;
        MulMonotone(x, (k + 1) as real, step);
        k + 1
      else
        assert (k as real) <= x;
        MulMonotone(k as real, x, step);
        k
  }

  /** The grid t_i = i * step, 0 <= i, strictly below stop. */
  function Arange(stop: real, step: real): (g: seq<real>)
    requires step > 0.0
    ensures |g| == GridSize(stop, step)
    ensures forall i :: 0 <= i < |g| ==> g[i] == (i as real) * step && g[i] < stop
  {
    var n := GridSize(stop, step);
    var g := seq(n, i requires 0 <= i < n => (i as real) * step);
    assert forall i :: 0 <= i < n ==> g[i] < stop by {
      forall i | 0 <= i < n ensures g[i] < stop {
        assert (i as real) <= (n - 1) as real;
        MulMonotone(i as real, (n - 1) as real, step);
        assert ((n - 1) as real) * step < stop;
        assert g[i] == (i as real) * step;
      }
    }
    g
  }

  /** Every point below stop is on the grid, and the grid is empty exactly
      when stop <= 0. */
  lemma {:induction false} ArangeComplete(stop: real, step: real, i: nat)
    requires step > 0.0 && (i as real) * step < stop
    ensures i < |Arange(stop, step)| && Arange(stop, step)[i] == (i as real) * step
  {
    var n := GridSize(stop, step);
    if n <= i {
      MulMonotone(n as real, i as real, step);
    }
  }

  /** Element-wise product of a sequence with a constant (numpy `s * c`). */
  function Scaled(s: seq<real>, c: real): (r: seq<real>)
    ensures |r| == |s|
    ensures forall i :: 0 <= i < |s| ==> r[i] == s[i] * c
  {
    seq(|s|, i requires 0 <= i < |s| => s[i] * c)
  }

  /** Element-wise complement 1 - s_i (numpy `1 - s`). */
  function Complement(s: seq<real>): (r: seq<real>)
    ensures |r| == |s|
    ensures forall i :: 0 <= i < |s| ==> r[i] + s[i] == 1.0
  {
    seq(|s|, i requires 0 <= i < |s| => 1.0 - s[i])
  }
}

/** Physical constants of src/aldsim/constants.py (SI units). */
module Constants {
  const Kb: real := 1.38e-23
  const Amu: real := 1.660e-27
  const Nav: real := 6.022e23
}
