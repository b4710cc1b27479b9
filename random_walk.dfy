/**
 * The step-by-step Brownian walk of the basics script: a loop that moves the
 * position `x` by one draw per step and appends the new position to `traj`
 * and the step's time to `zeit`. The draws of `norm.rvs(scale=delta**2*dt)`
 * enter as `steps`; the walk is the same trajectory as one row of `brownian`.
 */
module RandomWalk {
  import opened Brownian

  /**
   * `for k in range(n): tn = k*dt; x = x + step; traj.append(x); zeit.append(tn)`,
   * returning both lists and the final value of `x`.
   */
  method Walk(x: real, dt: real, n: nat, steps: seq<real>) returns (traj: seq<real>, zeit: seq<real>, last: real)
    requires |steps| == n
    ensures |traj| == n && |zeit| == n
    ensures forall k :: 0 <= k < n ==> zeit[k] == k as real * dt
    ensures traj == Trajectory(x, steps)
    ensures n > 0 ==> traj[0] - x == steps[0]
    ensures forall k :: 0 < k < n ==> traj[k] - traj[k - 1] == steps[k]
    ensures last == x + Sum(steps)
    ensures n > 0 ==> last == traj[n - 1]
  {
    traj, zeit, last := [], [], x;
    var k := 0;
    while k < n
      invariant 0 <= k <= n
      invariant traj == Trajectory(x, steps[..k])
      invariant |zeit| == k && forall j :: 0 <= j < k ==> zeit[j] == j as real * dt
      invariant last == x + Sum(steps[..k])
    {
      var tn := k as real * dt;
      TrajectoryAppend(x, steps[..k], steps[k]);
      SumStep(steps, k);
      assert steps[..k + 1] == steps[..k] + [steps[k]];
      last := last + steps[k];
      traj := traj + [last];
      zeit := zeit + [tn];
      k := k + 1;
    }
    assert steps[..n] == steps;
    TrajectorySteps(x, steps);
  }
}
