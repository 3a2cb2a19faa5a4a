// The workspace visualizer of part B (`WorkspaceVisualizer` in partb/workspace_visualization.py):
// it caches one sampled workspace of a `RoboticArm`, splits the grid into reachable and
// unreachable points, clips sample configurations to the joint limits, and computes
// reach and area metrics.  The drawing itself is not modelled.

module Workspace {
  import opened Wrappers
  import opened Geometry
  import opened Optimization
  import opened Seqs
  import opened RobotArm

  /** The resolution `calculate_workspace` uses when none is given. */
  const DefaultResolution: nat := 200

  /** The grid points not in the reachable set, in grid order. */
  function Unreachable(all: seq<Point>, reachable: seq<Point>): seq<Point> {
    Filter(all, p => p !in reachable)
  }

  /** `np.clip(angles, lows, highs)`: each angle raised to its lower limit, then lowered to its upper one. */
  function Clip(angles: seq<real>, limits: seq<(real, real)>): (r: seq<real>)
    requires |angles| == |limits|
    ensures |r| == |angles|
  {
    seq(|angles|, i requires 0 <= i < |angles| =>
      var raised := if angles[i] < limits[i].0 then limits[i].0 else angles[i];
      if raised > limits[i].1 then limits[i].1 else raised)
  }

  /**
   * The limits `np.clip` applies to the three angles of a sample configuration: the joint
   * limits themselves when there are three, one limit repeated when there is one (numpy
   * broadcasts it over the three angles), and numpy's shape error (`None`) for any other
   * number of limits.
   */
  function SampleLimits(limits: seq<(real, real)>): (r: Option<seq<(real, real)>>)
    ensures r.Some? <==> |limits| == 3 || |limits| == 1
    ensures r.Some? ==> |r.value| == 3 && forall i :: 0 <= i < 3 ==> r.value[i] == limits[if |limits| == 1 then 0 else i]
  {
    if |limits| == 3 then Some(limits)
    else if |limits| == 1 then Some([limits[0], limits[0], limits[0]])
    else None
  }

  /** The five configurations drawn over the workspace. */
  function SampleAngles(): seq<seq<real>> {
    [ [0.0, 0.0, 0.0],
      [Pi / 4.0, Pi / 6.0, -Pi / 3.0],
      [Pi / 2.0, -Pi / 4.0, Pi / 6.0],
      [-Pi / 3.0, Pi / 3.0, -Pi / 6.0],
      [Pi, 0.0, 0.0] ]
  }

  /** What `analyze_workspace_metrics` reports. */
  datatype WorkspaceMetrics = WorkspaceMetrics(
    maxReachTheoretical: real,
    minReachTheoretical: real,
    maxReachActual: real,
    minReachActual: real,
    reachableCount: nat,
    totalCount: nat,
    ratioPercent: real,
    area: real)

  function Distances(m: MathLib, pts: seq<Point>): (d: seq<real>)
    ensures |d| == |pts|
  {
    seq(|pts|, i requires 0 <= i < |pts| => Distance(m, pts[i]))
  }

  /** count grid cells of side 2 * maxReach / sqrt(total). */
  function AreaEstimate(m: MathLib, maxReach: real, count: nat, total: nat): real
    requires Lawful(m) && total > 0
  {
    var n := total as real;
    assert m.sqrt(n) * m.sqrt(n) == n;
    var side := 2.0 * maxReach / m.sqrt(n);
    (count as real) * (side * side)
  }

  /**
   * The metrics of a sampled workspace.  The area is the number of reachable points times
   * the area of one grid cell, whose side is 2 * max_reach / sqrt(number of tested points).
   * With no reachable point the actual reaches and the area are 0.
   */
  /** A share of a non-empty total, in percent, lies between 0 and 100 when the part fits in the total. */
  lemma PercentBounds(count: nat, total: nat)
    requires total > 0
    ensures count <= total ==> 0.0 <= (count as real) / (total as real) * 100.0 <= 100.0
  {
    var q := (count as real) / (total as real);
    assert q * (total as real) == count as real;
    if count <= total {
      assert 0.0 <= q;
      assert q * (total as real) <= 1.0 * (total as real);
    }
  }

  function Metrics(m: MathLib, links: seq<real>, reachable: seq<Point>, all: seq<Point>): (r: WorkspaceMetrics)
    requires Lawful(m) && |links| >= 1 && |all| > 0
    ensures r.reachableCount == |reachable| && r.totalCount == |all|
    ensures 0.0 <= r.minReachTheoretical
    ensures |reachable| <= |all| ==> 0.0 <= r.ratioPercent <= 100.0
    ensures |reachable| > 0 ==> r.minReachActual <= r.maxReachActual
    ensures |reachable| == 0 ==> r.maxReachActual == 0.0 && r.minReachActual == 0.0 && r.area == 0.0
  {
    var maxTheo := MaxReach(links);
    var minTheo := MinReach(links);
    var ratio := (|reachable| as real) / (|all| as real) * 100.0;
    PercentBounds(|reachable|, |all|);
    if |reachable| > 0 then
      var d := Distances(m, reachable);
      assert MinOf(d) <= d[0] <= MaxOf(d);
      WorkspaceMetrics(maxTheo, minTheo, MaxOf(d), MinOf(d), |reachable|, |all|, ratio,
                       AreaEstimate(m, maxTheo, |reachable|, |all|))
    else
      WorkspaceMetrics(maxTheo, minTheo, 0.0, 0.0, 0, |all|, ratio, 0.0)
  }

  /**
   * Why `analyze_workspace_metrics` can fail: with no links, `link_lengths[-1]` raises an
   * IndexError; with no tested points, the ratio divides by zero.
   */
  datatype MetricsError = NoLinks | NoPointsTested

  /**
   * The unreachable list holds exactly the tested points that are not reachable, in the
   * order they were tested.
   */
  lemma UnreachableIsComplement(all: seq<Point>, reachable: seq<Point>)
    ensures IsSubsequence(Unreachable(all, reachable), all)
    ensures forall p :: p in Unreachable(all, reachable) <==> p in all && p !in reachable
  {
    var keep := p => p !in reachable;
    FilterIsSubsequence(all, keep);
    forall p ensures p in Filter(all, keep) <==> p in all && keep(p) {
      FilterMembership(all, keep, p);
    }
  }

  /** Every clipped angle lies within its joint's limits (when the limits are ordered). */
  lemma ClipWithinLimits(angles: seq<real>, limits: seq<(real, real)>)
    requires |angles| == |limits|
    requires forall i :: 0 <= i < |limits| ==> limits[i].0 <= limits[i].1
    ensures forall i :: 0 <= i < |angles| ==> limits[i].0 <= Clip(angles, limits)[i] <= limits[i].1
  {
  }

  /** Clipping leaves a configuration that is already within the limits as it is. */
  lemma ClipKeepsAdmissible(angles: seq<real>, limits: seq<(real, real)>)
    requires |angles| == |limits|
    requires forall i :: 0 <= i < |limits| ==> limits[i].0 <= angles[i] <= limits[i].1
    ensures Clip(angles, limits) == angles
  {
  }

  /**
   * On a resolution x resolution grid, the area estimate is the 4-DOF arm's formula:
   * reachable count times (2 * max_reach / resolution)^2.
   */
  lemma AreaOnSquareGrid(m: MathLib, links: seq<real>, reachable: seq<Point>, all: seq<Point>, resolution: nat)
    requires Lawful(m) && |links| >= 1 && resolution > 0 && |all| == resolution * resolution
    ensures Metrics(m, links, reachable, all).area == CellsArea(|reachable|, resolution, MaxReach(links))
  {
    var w := Metrics(m, links, reachable, all);
    if |reachable| > 0 {
      assert w.area == AreaEstimate(m, MaxReach(links), |reachable|, |all|);
      AreaEstimateOnSquare(m, MaxReach(links), |reachable|, |all|, resolution);
    } else {
      assert w.area == 0.0;
    }
  }

  /** With resolution^2 tested points the cell side is 2 * maxReach / resolution. */
  lemma AreaEstimateOnSquare(m: MathLib, maxReach: real, count: nat, total: nat, resolution: nat)
    requires Lawful(m) && resolution > 0 && total == resolution * resolution
    ensures AreaEstimate(m, maxReach, count, total) == CellsArea(count, resolution, maxReach)
  {
    var r := resolution as real;
    var n := total as real;
    assert n == r * r;
    SqrtOfSquare(m, r);
    assert m.sqrt(n) == r;
  }

  /**
   * When every reachable point passed `is_reachable`, the measured reach lies within the
   * theoretical bounds: min_theoretical <= min_actual <= max_actual <= max_theoretical.
   */
  lemma ActualReachWithinTheory(m: MathLib, links: seq<real>, reachable: seq<Point>, all: seq<Point>)
    requires Lawful(m) && |links| >= 1 && |all| > 0 && |reachable| > 0
    requires forall p :: p in reachable ==> IsReachable(m, links, p)
    ensures var w := Metrics(m, links, reachable, all);
      w.minReachTheoretical <= w.minReachActual <= w.maxReachActual <= w.maxReachTheoretical
  {
    var d := Distances(m, reachable);
    assert forall i :: 0 <= i < |d| ==> MinReach(links) <= d[i] <= MaxReach(links) by {
      forall i | 0 <= i < |d| ensures MinReach(links) <= d[i] <= MaxReach(links) {
        assert reachable[i] in reachable;
      }
    }
    assert d[0] <= MaxOf(d) && MinOf(d) <= d[0];
  }

  /** The metrics of a sampler's output satisfy the reach bounds. */
  lemma SampledReachWithinTheory(m: MathLib, links: seq<real>, solver: Solver, seed: seq<real>,
                                 all: seq<Point>)
    requires Lawful(m) && |links| >= 1 && |all| > 0 && |Reachable(m, links, solver, seed, all)| > 0
    ensures var w := Metrics(m, links, Reachable(m, links, solver, seed, all), all);
      w.minReachTheoretical <= w.minReachActual <= w.maxReachActual <= w.maxReachTheoretical
  {
    WorkspaceReachableIsFiltered(m, links, solver, seed, all);
    ActualReachWithinTheory(m, links, Reachable(m, links, solver, seed, all), all);
  }

  class WorkspaceVisualizer {
    const robot: RoboticArm
    var reachablePoints: Option<seq<Point>>
    var allPoints: Option<seq<Point>>

    ghost predicate Valid()
      reads this
    {
      robot.Valid() && (reachablePoints.Some? <==> allPoints.Some?)
    }

    /** Nothing is computed until it is asked for. */
    constructor (robot: RoboticArm)
      requires robot.Valid()
      ensures Valid() && this.robot == robot
      ensures reachablePoints.None? && allPoints.None?
    {
      this.robot := robot;
      reachablePoints, allPoints := None, None;
    }

    /** `calculate_workspace`: stores exactly the pair the robot's sampler returns. */
    method CalculateWorkspace(m: MathLib, solver: Solver, resolution: nat)
      requires Valid() && (resolution == 0 || |robot.linkLengths| >= 1)
      modifies this
      ensures Valid()
      ensures var all := Grid(Axis(robot.linkLengths, resolution), Axis(robot.linkLengths, resolution));
        && allPoints == Some(all)
        && reachablePoints == Some(Reachable(m, robot.linkLengths, solver, robot.jointAngles, all))
    {
      var reachable, all := robot.GetWorkspace(m, solver, resolution);
      reachablePoints, allPoints := Some(reachable), Some(all);
    }

    /** The workspace is sampled at the default resolution if it has not been yet. */
    method EnsureWorkspace(m: MathLib, solver: Solver)
      requires Valid() && |robot.linkLengths| >= 1
      modifies this
      ensures Valid() && reachablePoints.Some?
      ensures old(reachablePoints).Some? ==> reachablePoints == old(reachablePoints) && allPoints == old(allPoints)
      ensures old(reachablePoints).None? ==>
        var all := Grid(Axis(robot.linkLengths, DefaultResolution), Axis(robot.linkLengths, DefaultResolution));
        && allPoints == Some(all)
        && reachablePoints == Some(Reachable(m, robot.linkLengths, solver, robot.jointAngles, all))
    {
      if reachablePoints.None? {
        CalculateWorkspace(m, solver, DefaultResolution);
      }
    }

    /** The unreachable points that `show_unreachable` draws: tested points not in the reachable set. */
    method UnreachablePoints() returns (unreachable: seq<Point>)
      requires Valid() && reachablePoints.Some?
      ensures unreachable == Unreachable(allPoints.value, reachablePoints.value)
    {
      var all, reachable := allPoints.value, reachablePoints.value;
      ghost var keep := p => p !in reachable;
      unreachable := [];
      for k := 0 to |all|
        invariant unreachable == Filter(all[..k], keep)
      {
        assert all[..k + 1] == all[..k] + [all[k]];
        FilterSnoc(all[..k], keep, all[k]);
        if all[k] !in reachable {
          unreachable := unreachable + [all[k]];
        }
      }
      assert all[..|all|] == all;
    }

    /**
     * The arm configurations drawn over the workspace: each sample configuration clipped
     * to the joint limits, then run through forward kinematics.  `None` stands for the
     * error the source raises: a number of limits `np.clip` cannot broadcast over three
     * angles, or more than three links, whose forward kinematics indexes past the angles.
     */
    method SampleConfigurations(m: MathLib) returns (configurations: Option<seq<seq<Point>>>)
      requires Valid()
      ensures configurations.None? <==> SampleLimits(robot.jointLimits).None? || robot.numJoints > 3
      ensures configurations.Some? ==> |configurations.value| == |SampleAngles()|
      ensures configurations.Some? ==> forall i :: 0 <= i < |configurations.value| ==>
        configurations.value[i] == ArmPositions(m, robot.linkLengths, Clip(SampleAngles()[i], SampleLimits(robot.jointLimits).value))
    {
      var limits := SampleLimits(robot.jointLimits);
      if limits.None? || robot.numJoints > 3 {
        return None;
      }
      var samples := SampleAngles();
      var drawn := [];
      for i := 0 to |samples|
        invariant |drawn| == i
        invariant forall k :: 0 <= k < i ==>
          drawn[k] == ArmPositions(m, robot.linkLengths, Clip(samples[k], limits.value))
      {
        var clipped := Clip(samples[i], limits.value);
        var _, positions := robot.ForwardKinematics(m, Some(clipped));
        drawn := drawn + [positions];
      }
      configurations := Some(drawn);
    }

    /**
     * `plot_workspace`: samples the workspace first if needed, then yields what would be
     * drawn: the unreachable points (only when asked for and something was tested) and the
     * clipped sample configurations, or `None` where drawing them fails after sampling.
     */
    method PlotWorkspace(m: MathLib, solver: Solver, showUnreachable: bool)
      returns (unreachable: seq<Point>, configurations: Option<seq<seq<Point>>>)
      requires Valid() && |robot.linkLengths| >= 1
      modifies this
      ensures Valid() && reachablePoints.Some?
      ensures old(reachablePoints).Some? ==> reachablePoints == old(reachablePoints) && allPoints == old(allPoints)
      ensures old(reachablePoints).None? ==>
        var all := Grid(Axis(robot.linkLengths, DefaultResolution), Axis(robot.linkLengths, DefaultResolution));
        && allPoints == Some(all)
        && reachablePoints == Some(Reachable(m, robot.linkLengths, solver, robot.jointAngles, all))
      ensures unreachable == if showUnreachable && |allPoints.value| > 0
                             then Unreachable(allPoints.value, reachablePoints.value) else []
      ensures configurations.None? <==> SampleLimits(robot.jointLimits).None? || robot.numJoints > 3
      ensures configurations.Some? ==> |configurations.value| == |SampleAngles()|
      ensures configurations.Some? ==> forall i :: 0 <= i < |configurations.value| ==>
        configurations.value[i] == ArmPositions(m, robot.linkLengths, Clip(SampleAngles()[i], SampleLimits(robot.jointLimits).value))
    {
      EnsureWorkspace(m, solver);
      unreachable := [];
      if showUnreachable && |allPoints.value| > 0 {
        unreachable := UnreachablePoints();
      }
      configurations := SampleConfigurations(m);
    }

    /**
     * `analyze_workspace_metrics`: samples the workspace first if needed, then reports the
     * theoretical and measured reach, the counts, the ratio and the area estimate.  With no
     * links it fails before sampling anything (sampling would fail on the first point, and a
     * stored workspace fails on the minimum reach); with an empty stored grid it fails on
     * the ratio.
     */
    method AnalyzeWorkspaceMetrics(m: MathLib, solver: Solver) returns (result: Result<WorkspaceMetrics, MetricsError>)
      requires Valid() && Lawful(m)
      modifies this
      ensures Valid()
      ensures |robot.linkLengths| == 0 ==>
        && result == Err(NoLinks)
        && reachablePoints == old(reachablePoints) && allPoints == old(allPoints)
      ensures |robot.linkLengths| >= 1 ==> reachablePoints.Some?
      ensures |robot.linkLengths| >= 1 && old(reachablePoints).Some? ==>
        reachablePoints == old(reachablePoints) && allPoints == old(allPoints)
      ensures |robot.linkLengths| >= 1 && old(reachablePoints).None? ==>
        var all := Grid(Axis(robot.linkLengths, DefaultResolution), Axis(robot.linkLengths, DefaultResolution));
        && allPoints == Some(all)
        && reachablePoints == Some(Reachable(m, robot.linkLengths, solver, robot.jointAngles, all))
      ensures |robot.linkLengths| >= 1 ==>
        && (result == Err(NoPointsTested) <==> |allPoints.value| == 0)
        && (result.Ok? <==> |allPoints.value| > 0)
        && (result.Ok? ==> result.value == Metrics(m, robot.linkLengths, reachablePoints.value, allPoints.value))
    {
      if |robot.linkLengths| == 0 {
        return Err(NoLinks);
      }
      EnsureWorkspace(m, solver);
      if old(reachablePoints).None? {
        GridLength(Axis(robot.linkLengths, DefaultResolution), Axis(robot.linkLengths, DefaultResolution));
      }
      if |allPoints.value| == 0 {
        return Err(NoPointsTested);
      }
      result := Ok(Metrics(m, robot.linkLengths, reachablePoints.value, allPoints.value));
    }
  }
}
