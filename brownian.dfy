/**
 * The Brownian-motion trajectory builder `brownian(x0, n, dt, delta, out)` and
 * the scripts that call it with a preallocated matrix.
 *
 * The normal draws `norm.rvs(size = x0.shape + (n,), scale = delta * sqrt(dt))`
 * enter as the matrix `r` of increments, one row per start value; `dt` and
 * `delta` only shape that distribution and do not appear here. Positions are
 * `real`, so the model says nothing about floating-point rounding.
 */
module Brownian {
  import opened Wrappers

  /** Sum of a sequence of increments. */
  function Sum(s: seq<real>): real
  {
    if s == [] then 0.0 else Sum(s[..|s| - 1]) + s[|s| - 1]
  }

  /** Extending a prefix by one element adds that element to its sum. */
  lemma SumStep(s: seq<real>, k: nat)
    requires k < |s|
    ensures Sum(s[..k + 1]) == Sum(s[..k]) + s[k]
  {
    assert s[..k + 1][..k] == s[..k];
  }

  /**
   * Positions after each step of one row: `np.cumsum(inc) + x0`.
   * Entry k is the start plus the first k + 1 increments.
   */
  function Trajectory(x0: real, inc: seq<real>): (t: seq<real>)
    ensures |t| == |inc|
  {
    seq(|inc|, k requires 0 <= k < |inc| => x0 + Sum(inc[..k + 1]))
  }

  /** Consecutive positions differ by exactly one increment; the first differs from the start by increment 0. */
  lemma TrajectorySteps(x0: real, inc: seq<real>)
    ensures |inc| > 0 ==> Trajectory(x0, inc)[0] - x0 == inc[0]
    ensures forall k :: 0 < k < |inc| ==> Trajectory(x0, inc)[k] - Trajectory(x0, inc)[k - 1] == inc[k]
  {
    var t := Trajectory(x0, inc);
    if |inc| > 0 {
      SumStep(inc, 0);
    }
    forall k | 0 < k < |inc|
      ensures t[k] - t[k - 1] == inc[k]
    {
      SumStep(inc, k);
    }
  }

  /**
   * The step relation determines the trajectory: any sequence that starts one
   * increment away from `x0` and then moves by one increment per entry is it.
   */
  lemma {:induction false} TrajectoryUnique(x0: real, inc: seq<real>, t: seq<real>)
    requires |t| == |inc|
    requires |inc| > 0 ==> t[0] - x0 == inc[0]
    requires forall k :: 0 < k < |inc| ==> t[k] - t[k - 1] == inc[k]
    ensures t == Trajectory(x0, inc)
  {
    var u := Trajectory(x0, inc);
    TrajectorySteps(x0, inc);
    var k := 0;
    while k < |inc|
      invariant 0 <= k <= |inc|
      invariant forall j :: 0 <= j < k ==> t[j] == u[j]
    {
      if k > 0 {
        assert t[k] == t[k - 1] + inc[k] && u[k] == u[k - 1] + inc[k];
      }
      k := k + 1;
    }
  }

  /** Appending one increment appends one position: the last one moved by that increment. */
  lemma TrajectoryAppend(x0: real, inc: seq<real>, d: real)
    ensures Trajectory(x0, inc + [d]) == Trajectory(x0, inc) + [x0 + Sum(inc) + d]
  {
    var s := inc + [d];
    assert s[..|s| - 1] == inc;
    assert s[..|inc| + 1] == s;
    forall k | 0 <= k < |inc|
      ensures Trajectory(x0, s)[k] == Trajectory(x0, inc)[k]
    {
      assert s[..k + 1] == inc[..k + 1];
    }
  }

  /** A sum of zero increments is zero. */
  lemma {:induction false} SumOfZeros(s: seq<real>)
    requires forall i :: 0 <= i < |s| ==> s[i] == 0.0
    ensures Sum(s) == 0.0
  {
    if s != [] {
      SumOfZeros(s[..|s| - 1]);
    }
  }

  /** With every increment zero the walk never leaves its start. */
  lemma ZeroIncrements(x0: real, inc: seq<real>)
    requires forall i :: 0 <= i < |inc| ==> inc[i] == 0.0
    ensures forall k :: 0 <= k < |inc| ==> Trajectory(x0, inc)[k] == x0
  {
    forall k | 0 <= k < |inc|
      ensures Trajectory(x0, inc)[k] == x0
    {
      SumOfZeros(inc[..k + 1]);
    }
  }

  /** The whole path a caller plots: the start position followed by the n filled positions. */
  function Path(x0: real, inc: seq<real>): seq<real>
  {
    [x0] + Trajectory(x0, inc)
  }

  /** A path has n + 1 positions, starts at `x0`, moves by one increment per step and ends at the start plus all increments. */
  lemma PathShape(x0: real, inc: seq<real>)
    ensures |Path(x0, inc)| == |inc| + 1 && Path(x0, inc)[0] == x0
    ensures forall k :: 0 <= k < |inc| ==> Path(x0, inc)[k + 1] - Path(x0, inc)[k] == inc[k]
    ensures Path(x0, inc)[|inc|] == x0 + Sum(inc)
  {
    TrajectorySteps(x0, inc);
    if |inc| > 0 {
      assert inc[..|inc|] == inc;
    }
  }

  /** The sampler's output shape: `m` rows of `n` increments. */
  predicate IsMatrix(r: seq<seq<real>>, m: nat, n: nat)
  {
    |r| == m && forall i :: 0 <= i < m ==> |r[i]| == n
  }

  /** A numpy view `buf[:, col:]`: every row of `buf`, from column `col` to the end. */
  datatype View = View(buf: array2<real>, col: nat)

  /** Width of the view `buf[:, col:]` (empty when `col` is past the last column). */
  function Width(v: View): nat
  {
    if v.col <= v.buf.Length1 then v.buf.Length1 - v.col else 0
  }

  /** The view has the shape `(m, n)` that `np.cumsum(..., out=...)` demands. */
  predicate Fits(v: View, m: nat, n: nat)
  {
    v.buf.Length0 == m && Width(v) == n
  }

  datatype ShapeError = ShapeMismatch

  /** Row i of the view holds the trajectory of start `x0[i]` under increments `r[i]`. */
  ghost predicate Holds(v: View, x0: seq<real>, r: seq<seq<real>>, n: nat)
    reads v.buf
    requires IsMatrix(r, |x0|, n)
  {
    Fits(v, |x0|, n) &&
    forall i, j :: 0 <= i < |x0| && v.col <= j < v.col + n ==> v.buf[i, j] == Trajectory(x0[i], r[i])[j - v.col]
  }

  /** `np.cumsum(r, axis=-1, out=v)`: each row of the view receives the running sums of its own row of `r`. */
  method CumSumInto(r: seq<seq<real>>, n: nat, v: View)
    requires IsMatrix(r, v.buf.Length0, n) && Fits(v, |r|, n)
    modifies v.buf
    ensures forall i, j :: 0 <= i < |r| && v.col <= j < v.col + n ==> v.buf[i, j] == Sum(r[i][..j - v.col + 1])
    ensures forall i, j :: 0 <= i < v.buf.Length0 && 0 <= j < v.buf.Length1 && j < v.col ==> v.buf[i, j] == old(v.buf[i, j])
  {
    var i := 0;
    while i < |r|
      invariant 0 <= i <= |r|
      invariant forall i', j :: 0 <= i' < i && v.col <= j < v.col + n ==> v.buf[i', j] == Sum(r[i'][..j - v.col + 1])
      invariant forall i', j :: 0 <= i' < v.buf.Length0 && 0 <= j < v.buf.Length1 && j < v.col ==> v.buf[i', j] == old(v.buf[i', j])
    {
      var acc := 0.0;
      var k := 0;
      while k < n
        invariant 0 <= k <= n
        invariant acc == Sum(r[i][..k])
        invariant forall i', j :: 0 <= i' < i && v.col <= j < v.col + n ==> v.buf[i', j] == Sum(r[i'][..j - v.col + 1])
        invariant forall j :: v.col <= j < v.col + k ==> v.buf[i, j] == Sum(r[i][..j - v.col + 1])
        invariant forall i', j :: 0 <= i' < v.buf.Length0 && 0 <= j < v.buf.Length1 && j < v.col ==> v.buf[i', j] == old(v.buf[i', j])
      {
        SumStep(r[i], k);
        acc := acc + r[i][k];
        v.buf[i, v.col + k] := acc;
        k := k + 1;
      }
      i := i + 1;
    }
  }

  /** `out += np.expand_dims(x0, axis=-1)`: every cell of row i of the view is moved by `x0[i]`. */
  method AddStart(x0: seq<real>, n: nat, v: View)
    requires Fits(v, |x0|, n)
    modifies v.buf
    ensures forall i, j :: 0 <= i < |x0| && v.col <= j < v.col + n ==> v.buf[i, j] == old(v.buf[i, j]) + x0[i]
    ensures forall i, j :: 0 <= i < v.buf.Length0 && 0 <= j < v.buf.Length1 && j < v.col ==> v.buf[i, j] == old(v.buf[i, j])
  {
    var i := 0;
    while i < |x0|
      invariant 0 <= i <= |x0|
      invariant forall i', j :: 0 <= i' < i && v.col <= j < v.col + n ==> v.buf[i', j] == old(v.buf[i', j]) + x0[i']
      invariant forall i', j :: i <= i' < |x0| && v.col <= j < v.col + n ==> v.buf[i', j] == old(v.buf[i', j])
      invariant forall i', j :: 0 <= i' < v.buf.Length0 && 0 <= j < v.buf.Length1 && j < v.col ==> v.buf[i', j] == old(v.buf[i', j])
    {
      var k := 0;
      while k < n
        invariant 0 <= k <= n
        invariant forall i', j :: 0 <= i' < i && v.col <= j < v.col + n ==> v.buf[i', j] == old(v.buf[i', j]) + x0[i']
        invariant forall j :: v.col <= j < v.col + k ==> v.buf[i, j] == old(v.buf[i, j]) + x0[i]
        invariant forall j :: v.col + k <= j < v.col + n ==> v.buf[i, j] == old(v.buf[i, j])
        invariant forall i', j :: i < i' < |x0| && v.col <= j < v.col + n ==> v.buf[i', j] == old(v.buf[i', j])
        invariant forall i', j :: 0 <= i' < v.buf.Length0 && 0 <= j < v.buf.Length1 && j < v.col ==> v.buf[i', j] == old(v.buf[i', j])
      {
        v.buf[i, v.col + k] := v.buf[i, v.col + k] + x0[i];
        k := k + 1;
      }
      i := i + 1;
    }
  }

  /**
   * `brownian(x0, n, dt, delta, out)` for a one-dimensional `x0` (one start
   * value per row). Without `out` a fresh `(|x0|, n)` buffer is filled and
   * returned; with `out` the view is filled in place and returned, and
   * nothing left of the view changes. A view of another shape makes
   * `np.cumsum` raise, which leaves it untouched.
   */
  method Brownian(x0: seq<real>, n: nat, r: seq<seq<real>>, out: Option<View>) returns (res: Result<View, ShapeError>)
    requires IsMatrix(r, |x0|, n)
    modifies if out.Some? then {out.value.buf} else {}
    ensures out.None? ==> res.Success? && fresh(res.value.buf) && res.value.col == 0
    ensures out.None? ==> res.value.buf.Length0 == |x0| && res.value.buf.Length1 == n
    ensures out.Some? ==> (res.Success? <==> Fits(out.value, |x0|, n))
    ensures out.Some? && res.Success? ==> res.value == out.value
    ensures out.Some? && res.Failure? ==> res.error == ShapeMismatch && unchanged(out.value.buf)
    ensures res.Success? ==> Holds(res.value, x0, r, n)
    ensures out.Some? ==> var b, c := out.value.buf, out.value.col;
      forall i, j :: 0 <= i < b.Length0 && 0 <= j < b.Length1 && j < c ==> b[i, j] == old(b[i, j])
  {
    var v: View;
    if out.None? {
      var buf := new real[|x0|, n];
      v := View(buf, 0);
    } else if !Fits(out.value, |x0|, n) {
      return Failure(ShapeMismatch);
    } else {
      v := out.value;
    }
    CumSumInto(r, n, v);
    AddStart(x0, n, v);
    res := Success(v);
  }

  /**
   * The call sites: `x = np.empty((m, n+1))` (or `np.zeros`), `x[:, 0] = 0.0`,
   * then `brownian(x[:,0], n, dt, delta, out=x[:,1:])`. Every row of `x` is then
   * a whole path of n + 1 positions starting at the origin.
   */
  method SimulatePaths(m: nat, n: nat, r: seq<seq<real>>) returns (x: array2<real>)
    requires IsMatrix(r, m, n)
    ensures fresh(x) && x.Length0 == m && x.Length1 == n + 1
    ensures forall i, j :: 0 <= i < m && 0 <= j <= n ==> x[i, j] == Path(0.0, r[i])[j]
  {
    x := new real[m, n + 1];
    var i := 0;
    while i < m
      invariant 0 <= i <= m
      invariant forall i' :: 0 <= i' < i ==> x[i', 0] == 0.0
    {
      x[i, 0] := 0.0;
      i := i + 1;
    }
    var x0 := [];
    i := 0;
    while i < m
      invariant 0 <= i <= m && |x0| == i
      invariant forall i' :: 0 <= i' < i ==> x0[i'] == 0.0
    {
      x0 := x0 + [x[i, 0]];
      i := i + 1;
    }
    var res := Brownian(x0, n, r, Some(View(x, 1)));
    assert res.Success?;
    forall i, j | 0 <= i < m && 0 <= j <= n
      ensures x[i, j] == Path(0.0, r[i])[j]
    {
      if j > 0 {
        assert x[i, j] == Trajectory(x0[i], r[i])[j - 1];
      }
    }
  }
}
