// The planar multi-link arm of assignment 1, part B (`RoboticArm` in partb/robot_arm.py):
// every joint is revolute, forward kinematics fills a table of joint positions,
// inverse kinematics is handed to an optimizer, and the workspace is sampled on a grid.

module RobotArm {
  import opened Wrappers
  import opened Geometry
  import opened Kinematics
  import opened Optimization
  import opened Seqs

  /** Links of non-negative length. */
  predicate NonNegative(links: seq<real>) {
    forall i :: 0 <= i < |links| ==> 0.0 <= links[i]
  }

  /** Largest distance from the base the arm can reach: `np.sum(link_lengths)`. */
  function MaxReach(links: seq<real>): (r: real)
    ensures NonNegative(links) ==> 0.0 <= r
  {
    SumOfLengths(links);
    Sum(links)
  }

  /** The links before the last one, like all of them, have a non-negative total length. */
  lemma SumOfLengths(links: seq<real>)
    ensures NonNegative(links) ==> 0.0 <= Sum(links)
    ensures NonNegative(links) && |links| >= 1 ==> 0.0 <= Sum(links[..|links| - 1])
  {
    if NonNegative(links) {
      SumNonNegative(links);
      if |links| >= 1 {
        SumNonNegative(links[..|links| - 1]);
      }
    }
  }

  /** `abs(np.sum(link_lengths[:-1]) - link_lengths[-1])` */
  function MinReach(links: seq<real>): (r: real)
    requires |links| >= 1
    ensures 0.0 <= r
    ensures NonNegative(links) ==> r <= MaxReach(links)
  {
    var n := |links| - 1;
    assert Sum(links) == Sum(links[..n]) + links[n];
    SumOfLengths(links);
    var d := Sum(links[..n]) - links[n];
    if d < 0.0 then -d else d
  }

  /**
   * `is_reachable`: the distance from the base lies between the two reach bounds.  The
   * annulus is never empty for real links, and its outer circle is always reachable.
   */
  function IsReachable(m: MathLib, links: seq<real>, p: Point): (r: bool)
    requires |links| >= 1
    ensures r ==> MinReach(links) <= MaxReach(links)
    ensures NonNegative(links) && Distance(m, p) == MaxReach(links) ==> r
  {
    MinReach(links) <= Distance(m, p) <= MaxReach(links)
  }

  /** The default joint limit, (-pi, pi), once per link. */
  function DefaultLimits(n: nat): (limits: seq<(real, real)>)
    ensures |limits| == n && forall i :: 0 <= i < n ==> limits[i] == (-Pi, Pi)
  {
    seq(n, _ => (-Pi, Pi))
  }

  function Revolutes(n: nat): seq<JointType> { seq(n, _ => Revolute) }

  /** The joint positions of the arm: the revolute chain over `links` driven by `angles`. */
  function ArmPositions(m: MathLib, links: seq<real>, angles: seq<real>): seq<Point>
    requires |angles| >= |links|
  {
    Positions(m, Revolutes(|links|), links, angles, Pose(Origin, 0.0), |links|)
  }

  /** `np.cumsum(angles)` */
  function CumSum(s: seq<real>): seq<real> {
    seq(|s|, i requires 0 <= i < |s| => Sum(s[..i + 1]))
  }

  /** What `inverse_kinematics` returns for a given initial guess: the optimizer's `x`, or None on failure. */
  function SolveIK(solver: Solver, target: Point, seed: seq<real>): (r: Option<seq<real>>)
    ensures r.None? <==> !solver(target, seed).success
    ensures r.Some? ==> r.value == solver(target, seed).x
  {
    var result := solver(target, seed);
    if result.success then Some(result.x) else None
  }

  /** The sample coordinates along either axis: `np.linspace(-max_reach, max_reach, resolution)`. */
  function Axis(links: seq<real>, resolution: nat): seq<real> {
    Linspace(-MaxReach(links), MaxReach(links), resolution)
  }

  /** A sampled point is kept: it passes `is_reachable` and inverse kinematics from `seed` succeeds. */
  predicate Accepts(m: MathLib, links: seq<real>, solver: Solver, seed: seq<real>, p: Point) {
    |links| >= 1 && IsReachable(m, links, p) && SolveIK(solver, p, seed).Some?
  }

  /** The points of `all` that the workspace sampler keeps, in order. */
  function Reachable(m: MathLib, links: seq<real>, solver: Solver, seed: seq<real>, all: seq<Point>): seq<Point> {
    Filter(all, p => Accepts(m, links, solver, seed, p))
  }

  /** The heading after the first i joints of the arm is the sum of their angles. */
  lemma ArmHeading(m: MathLib, links: seq<real>, angles: seq<real>, i: nat)
    requires |angles| >= |links| && i <= |links|
    ensures PoseAfter(m, Revolutes(|links|), links, angles, Pose(Origin, 0.0), i).angle == Sum(angles[..i])
  {
    HeadingIsRevoluteSum(m, Revolutes(|links|), links, angles, Pose(Origin, 0.0), i);
    AllRevoluteSum(Revolutes(|links|), angles, i);
  }

  /**
   * Forward kinematics of the table the source fills: n + 1 rows, row 0 is the base,
   * and row i + 1 is row i moved by link i along the sum of the first i + 1 angles.
   */
  lemma {:induction false} ArmPositionStep(m: MathLib, links: seq<real>, angles: seq<real>, i: nat)
    requires |angles| >= |links| && i < |links|
    ensures var ps := ArmPositions(m, links, angles);
      && |ps| == |links| + 1
      && ps[0] == Origin
      && ps[i + 1] == ps[i].Plus(Polar(m, links[i], Sum(angles[..i + 1])))
  {
    var kinds := Revolutes(|links|);
    var start := Pose(Origin, 0.0);
    var prev := PoseAfter(m, kinds, links, angles, start, i);
    PositionsAt(m, kinds, links, angles, start, |links|, i);
    PositionsAt(m, kinds, links, angles, start, |links|, i + 1);
    assert Sum(angles[..i + 1]) == prev.angle + angles[i] by {
      ArmHeading(m, links, angles, i);
      assert angles[..i + 1][..i] == angles[..i];
    }
    assert PoseAfter(m, kinds, links, angles, start, i + 1) == Advance(m, Revolute, links[i], angles[i], prev) by {
      assert kinds[i] == Revolute;
    }
  }

  /**
   * A table that starts at the origin and moves row by row by link k along the sum of the
   * first k + 1 angles is the forward-kinematics table.
   */
  lemma TableIsArmPositions(m: MathLib, links: seq<real>, angles: seq<real>, table: seq<Point>)
    requires |angles| >= |links| && |table| == |links| + 1 && table[0] == Origin
    requires forall k :: 0 <= k < |links| ==> table[k + 1] == table[k].Plus(Polar(m, links[k], Sum(angles[..k + 1])))
    ensures table == ArmPositions(m, links, angles)
  {
    var spec := ArmPositions(m, links, angles);
    forall k | 0 <= k <= |links| ensures table[k] == spec[k] {
      TableRowAgrees(m, links, angles, table, k);
    }
  }

  lemma {:induction false} TableRowAgrees(m: MathLib, links: seq<real>, angles: seq<real>, table: seq<Point>, k: nat)
    requires |angles| >= |links| && |table| == |links| + 1 && table[0] == Origin
    requires forall k :: 0 <= k < |links| ==> table[k + 1] == table[k].Plus(Polar(m, links[k], Sum(angles[..k + 1])))
    requires k <= |links|
    ensures table[k] == ArmPositions(m, links, angles)[k]
  {
    var ps := ArmPositions(m, links, angles);
    if k == 0 {
      assert ps[0] == Origin;
    } else {
      TableRowAgrees(m, links, angles, table, k - 1);
      assert ps[k] == ps[k - 1].Plus(Polar(m, links[k - 1], Sum(angles[..k]))) by {
        ArmPositionStep(m, links, angles, k - 1);
      }
    }
  }

  /** A straight revolute chain reaches exactly the sum of its links. */
  lemma {:induction false} RevoluteStraightLength(links: seq<real>, values: seq<real>, n: nat)
    requires n <= |links| && n <= |values|
    ensures StraightLength(Revolutes(|links|), links, values, n) == Sum(links[..n])
  {
    if n > 0 {
      RevoluteStraightLength(links, values, n - 1);
      assert links[..n][..n - 1] == links[..n - 1];
    }
  }

  /** With all angles zero the arm is stretched along the x axis and its tip is at (max reach, 0). */
  lemma StretchedArmTip(m: MathLib, links: seq<real>, angles: seq<real>)
    requires Lawful(m) && |angles| >= |links|
    requires forall i :: 0 <= i < |angles| ==> angles[i] == 0.0
    ensures ArmPositions(m, links, angles)[|links|] == Point(MaxReach(links), 0.0)
  {
    var kinds := Revolutes(|links|);
    ZeroConfigurationIsStraight(m, kinds, links, angles, Origin, |links|);
    RevoluteStraightLength(links, angles, |links|);
    assert links[..|links|] == links;
  }

  /**
   * For a lawful sqrt and non-negative links, `is_reachable` is the annulus test on squared
   * distance: min_reach^2 <= x^2 + y^2 <= max_reach^2.
   */
  lemma ReachableIffInAnnulus(m: MathLib, links: seq<real>, p: Point)
    requires Lawful(m) && |links| >= 1
    requires forall i :: 0 <= i < |links| ==> 0.0 <= links[i]
    ensures IsReachable(m, links, p) <==>
            MinReach(links) * MinReach(links) <= SqNorm(p) <= MaxReach(links) * MaxReach(links)
  {
    SumNonNegative(links);
    var v := SqNorm(p);
    assert 0.0 <= p.x * p.x && 0.0 <= p.y * p.y;
    SqrtCompare(m, v, MinReach(links));
    SqrtCompare(m, v, MaxReach(links));
  }

  /**
   * The sampler's reachable list is an order-preserving subsequence of the tested points;
   * every point in it passes `is_reachable` and has an IK solution; and every tested point
   * that passes both is in it.
   */
  lemma WorkspaceReachableIsFiltered(m: MathLib, links: seq<real>, solver: Solver, seed: seq<real>,
                                     all: seq<Point>)
    ensures var r := Reachable(m, links, solver, seed, all);
      && IsSubsequence(r, all)
      && (forall p :: p in r <==> p in all && |links| >= 1 && IsReachable(m, links, p) &&
                                  solver(p, seed).success)
  {
    var keep := p => Accepts(m, links, solver, seed, p);
    FilterIsSubsequence(all, keep);
    forall p ensures p in Filter(all, keep) <==> p in all && keep(p) {
      FilterMembership(all, keep, p);
    }
  }

  class RoboticArm {
    const linkLengths: seq<real>
    const numJoints: nat
    const jointLimits: seq<(real, real)>
    var jointAngles: seq<real>

    ghost predicate Valid() {
      numJoints == |linkLengths|
    }

    /** All angles start at zero; with no limits given, every joint gets (-pi, pi). */
    constructor (linkLengths: seq<real>, jointLimits: Option<seq<(real, real)>>)
      ensures Valid()
      ensures this.linkLengths == linkLengths
      ensures jointAngles == Zeros(|linkLengths|)
      ensures this.jointLimits == if jointLimits.None? then DefaultLimits(|linkLengths|) else jointLimits.value
    {
      this.linkLengths := linkLengths;
      numJoints := |linkLengths|;
      jointAngles := Zeros(|linkLengths|);
      this.jointLimits := if jointLimits.None? then DefaultLimits(|linkLengths|) else jointLimits.value;
    }

    /**
     * `forward_kinematics`: the given angles, or the stored ones when none are given, are
     * turned into the table of joint positions; the last row is the end effector.
     */
    method ForwardKinematics(m: MathLib, angles: Option<seq<real>>) returns (endEffector: Point, positions: seq<Point>)
      requires Valid()
      requires |if angles.Some? then angles.value else jointAngles| >= numJoints
      ensures positions == ArmPositions(m, linkLengths, if angles.Some? then angles.value else jointAngles)
      ensures |positions| == numJoints + 1 && positions[0] == Origin && endEffector == positions[numJoints]
    {
      var a := if angles.Some? then angles.value else jointAngles;
      var cumulative := CumSum(a);
      var rows := new Point[numJoints + 1](_ => Origin);
      for i := 0 to numJoints
        invariant rows[0] == Origin
        invariant forall k :: 0 <= k < i ==> rows[k + 1] == rows[k].Plus(Polar(m, linkLengths[k], cumulative[k]))
      {
        rows[i + 1] := rows[i].Plus(Polar(m, linkLengths[i], cumulative[i]));
      }
      ghost var table := rows[..];
      assert table == ArmPositions(m, linkLengths, a) by {
        forall k | 0 <= k < |linkLengths|
          ensures table[k + 1] == table[k].Plus(Polar(m, linkLengths[k], Sum(a[..k + 1])))
        {
          assert cumulative[k] == Sum(a[..k + 1]);
        }
        TableIsArmPositions(m, linkLengths, a, table);
      }
      positions := rows[..];
      endEffector := rows[numJoints];
    }

    /**
     * `inverse_kinematics`: seeded with the given guess or else the stored angles; None
     * exactly when the optimizer reports failure.  Nothing stored changes.
     */
    method InverseKinematics(solver: Solver, target: Point, initialGuess: Option<seq<real>>)
      returns (angles: Option<seq<real>>)
      ensures var seed := if initialGuess.Some? then initialGuess.value else jointAngles;
        && (angles.None? <==> !solver(target, seed).success)
        && (angles.Some? ==> angles.value == solver(target, seed).x)
    {
      var seed := if initialGuess.Some? then initialGuess.value else jointAngles;
      var result := solver(target, seed);
      if result.success {
        angles := Some(result.x);
      } else {
        angles := None;
      }
    }

    /**
     * `get_workspace`: tests every point of the resolution x resolution grid over
     * [-max_reach, max_reach]^2, x outer and y inner, and keeps those that pass
     * `is_reachable` and then have an IK solution from the stored angles.
     */
    method GetWorkspace(m: MathLib, solver: Solver, resolution: nat) returns (reachable: seq<Point>, all: seq<Point>)
      requires Valid() && (resolution == 0 || |linkLengths| >= 1)
      ensures all == Grid(Axis(linkLengths, resolution), Axis(linkLengths, resolution))
      ensures reachable == Reachable(m, linkLengths, solver, jointAngles, all)
    {
      var axis := Axis(linkLengths, resolution);
      ghost var seed := jointAngles;
      ghost var keep := p => Accepts(m, linkLengths, solver, seed, p);
      reachable, all := [], [];
      for i := 0 to resolution
        invariant all == Grid(axis[..i], axis)
        invariant reachable == Filter(all, keep)
      {
        GridRowStart(axis, axis, i);
        for j := 0 to resolution
          invariant all == Grid(axis[..i], axis) + Row(axis[i], axis[..j])
          invariant reachable == Filter(all, keep)
        {
          var p := Point(axis[i], axis[j]);
          var kept := false;
          if IsReachable(m, linkLengths, p) {
            var angles := InverseKinematics(solver, p, None);
            if angles.Some? {
              reachable := reachable + [p];
              kept := true;
            }
          }
          assert reachable == Filter(all + [p], keep) by {
            assert kept == keep(p);
            FilterSnoc(all, keep, p);
          }
          assert all + [p] == Grid(axis[..i], axis) + Row(axis[i], axis[..j + 1]) by {
            GridStep(axis, axis, i, j);
          }
          all := all + [p];
        }
        assert all == Grid(axis[..i + 1], axis) by {
          GridNextRow(axis, axis, i);
        }
      }
      assert axis[..resolution] == axis;
    }

    /** `set_joint_angles`: replaces the stored angles, with no limit check. */
    method SetJointAngles(angles: seq<real>)
      modifies this`jointAngles
      ensures jointAngles == angles
    {
      jointAngles := angles;
    }

    /** `get_joint_positions`: the forward-kinematics table of the stored angles. */
    method GetJointPositions(m: MathLib) returns (positions: seq<Point>)
      requires Valid() && |jointAngles| >= numJoints
      ensures positions == ArmPositions(m, linkLengths, jointAngles)
    {
      var _, ps := ForwardKinematics(m, None);
      positions := ps;
    }
  }
}
