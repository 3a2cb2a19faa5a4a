// The 4-DOF arm of assignment 1, part C (`Joint` and `RoboticArm4DOF` in
// partc/robotic_arm_4dof.py): revolute and prismatic joints in one chain, joint objects
// that guard their own limits, call counters for forward and inverse kinematics, and a
// grid analysis of the workspace.

module Arm4Dof {
  import opened Wrappers
  import opened Geometry
  import opened Kinematics
  import opened Optimization
  import opened Seqs

  /** The arm always has four joints. */
  const NumJoints: nat := 4

  /** Inverse kinematics counts as solved only below this residual (1 cm). */
  const Tolerance: real := 0.01

  /** The link length used for joint `i`: `base_links[i]`, or 1.0 past the end of `base_links`. */
  function LinkLength(baseLinks: seq<real>, i: nat): real {
    if i < |baseLinks| then baseLinks[i] else 1.0
  }

  function Links(baseLinks: seq<real>, n: nat): (links: seq<real>)
    ensures |links| == n
  {
    seq(n, i requires 0 <= i < n => LinkLength(baseLinks, i))
  }

  /** `zip(self.joints, joint_values)` stops at the shorter of the two. */
  function Active(kinds: seq<JointType>, values: seq<real>): nat {
    if |values| < |kinds| then |values| else |kinds|
  }

  /** The pose at the end of the chain, starting at the base with heading 0. */
  function EndPose(m: MathLib, kinds: seq<JointType>, baseLinks: seq<real>, base: Point, values: seq<real>): Pose {
    PoseAfter(m, kinds, Links(baseLinks, |kinds|), values, Pose(base, 0.0), Active(kinds, values))
  }

  /** The base and the position after every joint that takes part. */
  function JointPositions(m: MathLib, kinds: seq<JointType>, baseLinks: seq<real>, base: Point,
                          values: seq<real>): seq<Point> {
    Positions(m, kinds, Links(baseLinks, |kinds|), values, Pose(base, 0.0), Active(kinds, values))
  }

  /** The upper limits of the prismatic joints, in joint order. */
  function PrismaticLimits(kinds: seq<JointType>, upper: seq<real>): (r: seq<real>)
    requires |kinds| == |upper|
    ensures |r| <= |kinds|
  {
    if kinds == [] then []
    else
      var n := |kinds| - 1;
      PrismaticLimits(kinds[..n], upper[..n]) + (if kinds[n] == Prismatic then [upper[n]] else [])
  }

  /** `np.sum(base_links) + max(prismatic upper limits)` */
  function MaxReach(baseLinks: seq<real>, kinds: seq<JointType>, upper: seq<real>): (r: real)
    requires |kinds| == |upper| && |PrismaticLimits(kinds, upper)| > 0
    ensures forall i :: 0 <= i < |kinds| && kinds[i] == Prismatic ==> Sum(baseLinks) + upper[i] <= r
    ensures exists i :: 0 <= i < |kinds| && kinds[i] == Prismatic && r == Sum(baseLinks) + upper[i]
  {
    PrismaticLimitsMembers(kinds, upper);
    Sum(baseLinks) + MaxOf(PrismaticLimits(kinds, upper))
  }

  /** The success rule of `inverse_kinematics`: the optimizer succeeded and its residual is under 1 cm. */
  predicate Accepted(r: OptResult) {
    r.success && r.fun < Tolerance
  }

  /** Objective evaluations spent by inverse kinematics over `pts`, each seeded with `guess`. */
  function Evaluations(solver: Solver, guess: seq<real>, pts: seq<Point>): nat {
    if pts == [] then 0
    else Evaluations(solver, guess, pts[..|pts| - 1]) + solver(pts[|pts| - 1], guess).evaluations
  }

  lemma EvaluationsSnoc(solver: Solver, guess: seq<real>, pts: seq<Point>, p: Point)
    ensures Evaluations(solver, guess, pts + [p]) == Evaluations(solver, guess, pts) + solver(p, guess).evaluations
  {
    assert (pts + [p])[..|pts|] == pts;
  }

  /** What `get_workspace_analysis` returns. */
  datatype WorkspaceAnalysis = WorkspaceAnalysis(
    reachablePoints: seq<Point>,
    reachabilityRatio: real,
    totalPointsTested: nat,
    workspaceArea: real,
    maxReach: real)

  /** Why `get_workspace_analysis` raises: `max()` of no prismatic limits, or a division by zero. */
  datatype AnalysisError = NoPrismaticJoint | ZeroDivision

  /** The grid axis of the analysis. */
  function AnalysisAxis(maxReach: real, resolution: nat): seq<real> {
    Linspace(-maxReach, maxReach, resolution)
  }

  /** The test a grid point must pass: inverse kinematics from `guess` is accepted. */
  function AcceptedFrom(solver: Solver, guess: seq<real>): Point -> bool {
    p => Accepted(solver(p, guess))
  }

  /** The record built from the kept points of a resolution x resolution grid. */
  function Summary(reachable: seq<Point>, resolution: nat, maxReach: real): WorkspaceAnalysis
    requires resolution >= 1
  {
    var total := resolution * resolution;
    WorkspaceAnalysis(reachable, (|reachable| as real) / (total as real), total,
                      CellsArea(|reachable|, resolution, maxReach), maxReach)
  }

  /** The analysis of a resolution x resolution grid over [-maxReach, maxReach]^2. */
  function Analysis(solver: Solver, guess: seq<real>, maxReach: real, resolution: nat): WorkspaceAnalysis
    requires resolution >= 1
  {
    var axis := AnalysisAxis(maxReach, resolution);
    Summary(Filter(Grid(axis, axis), AcceptedFrom(solver, guess)), resolution, maxReach)
  }

  /** One more joint of the forward-kinematics loop: the pose and the position list advance together. */
  lemma FoldStep(m: MathLib, kinds: seq<JointType>, links: seq<real>, values: seq<real>, start: Pose, i: nat,
                 prev: Pose, next: Pose, positions: seq<Point>)
    requires i < |kinds| && i < |links| && i < |values|
    requires prev == PoseAfter(m, kinds, links, values, start, i)
    requires positions == Positions(m, kinds, links, values, start, i)
    requires next == Advance(m, kinds[i], links[i], values[i], prev)
    ensures next == PoseAfter(m, kinds, links, values, start, i + 1)
    ensures positions + [next.pos] == Positions(m, kinds, links, values, start, i + 1)
  {
  }

  /** A revolute joint turns the heading by its value and then moves its link length along it. */
  lemma RevoluteStep(m: MathLib, kinds: seq<JointType>, baseLinks: seq<real>, base: Point,
                     values: seq<real>, i: nat)
    requires i < Active(kinds, values) && kinds[i] == Revolute
    ensures var links := Links(baseLinks, |kinds|);
      var before := PoseAfter(m, kinds, links, values, Pose(base, 0.0), i);
      var after := PoseAfter(m, kinds, links, values, Pose(base, 0.0), i + 1);
      && after.angle == before.angle + values[i]
      && after.pos == before.pos.Plus(Polar(m, LinkLength(baseLinks, i), after.angle))
  {
  }

  /** A prismatic joint moves its own value along the current heading and does not turn. */
  lemma PrismaticStep(m: MathLib, kinds: seq<JointType>, baseLinks: seq<real>, base: Point,
                      values: seq<real>, i: nat)
    requires i < Active(kinds, values) && kinds[i] == Prismatic
    ensures var links := Links(baseLinks, |kinds|);
      var before := PoseAfter(m, kinds, links, values, Pose(base, 0.0), i);
      var after := PoseAfter(m, kinds, links, values, Pose(base, 0.0), i + 1);
      && after.angle == before.angle
      && after.pos == before.pos.Plus(Polar(m, values[i], before.angle))
  {
  }

  /** One position per active joint plus the base; the first is the base, the last the end effector. */
  lemma JointPositionsShape(m: MathLib, kinds: seq<JointType>, baseLinks: seq<real>, base: Point,
                            values: seq<real>)
    ensures var ps := JointPositions(m, kinds, baseLinks, base, values);
      && |ps| == Active(kinds, values) + 1
      && ps[0] == base
      && ps[|ps| - 1] == EndPose(m, kinds, baseLinks, base, values).pos
  {
  }

  /** Values beyond the last joint are ignored. */
  lemma ExtraValuesIgnored(m: MathLib, kinds: seq<JointType>, baseLinks: seq<real>, base: Point,
                           values: seq<real>)
    requires |values| >= |kinds|
    ensures EndPose(m, kinds, baseLinks, base, values) == EndPose(m, kinds, baseLinks, base, values[..|kinds|])
  {
    var n := |kinds|;
    var links := Links(baseLinks, n);
    PoseAfterPrefix(m, kinds, links, values, Pose(base, 0.0), n, n);
    assert kinds[..n] == kinds && links[..n] == links;
  }

  /** There is a prismatic limit exactly when some joint is prismatic. */
  lemma {:induction false} PrismaticLimitsNonEmpty(kinds: seq<JointType>, upper: seq<real>)
    requires |kinds| == |upper|
    ensures |PrismaticLimits(kinds, upper)| > 0 <==> exists i :: 0 <= i < |kinds| && kinds[i] == Prismatic
  {
    if kinds != [] {
      var n := |kinds| - 1;
      PrismaticLimitsNonEmpty(kinds[..n], upper[..n]);
      if kinds[n] != Prismatic && exists i :: 0 <= i < |kinds| && kinds[i] == Prismatic {
        var i :| 0 <= i < |kinds| && kinds[i] == Prismatic;
        assert kinds[..n][i] == Prismatic;
      }
      if exists i :: 0 <= i < n && kinds[..n][i] == Prismatic {
        var i :| 0 <= i < n && kinds[..n][i] == Prismatic;
        assert kinds[i] == Prismatic;
      }
    }
  }

  /** The prismatic limits are exactly the upper limits of the prismatic joints. */
  lemma {:induction false} PrismaticLimitsMembers(kinds: seq<JointType>, upper: seq<real>)
    requires |kinds| == |upper|
    ensures forall i :: 0 <= i < |kinds| && kinds[i] == Prismatic ==> upper[i] in PrismaticLimits(kinds, upper)
    ensures forall x :: x in PrismaticLimits(kinds, upper) ==>
      exists i :: 0 <= i < |kinds| && kinds[i] == Prismatic && upper[i] == x
  {
    if kinds != [] {
      var n := |kinds| - 1;
      PrismaticLimitsMembers(kinds[..n], upper[..n]);
      var prefix := PrismaticLimits(kinds[..n], upper[..n]);
      forall i | 0 <= i < |kinds| && kinds[i] == Prismatic
        ensures upper[i] in PrismaticLimits(kinds, upper)
      {
        if i < n {
          assert kinds[..n][i] == Prismatic && upper[..n][i] == upper[i];
        }
      }
      forall x | x in PrismaticLimits(kinds, upper)
        ensures exists i :: 0 <= i < |kinds| && kinds[i] == Prismatic && upper[i] == x
      {
        if x in prefix {
          var i :| 0 <= i < n && kinds[..n][i] == Prismatic && upper[..n][i] == x;
          assert kinds[i] == Prismatic && upper[i] == x;
        } else {
          assert kinds[n] == Prismatic && upper[n] == x;
        }
      }
    }
  }

  /**
   * Properties of the analysis: resolution^2 points are tested; the reachable list is an
   * order-preserving subsequence of them holding exactly the accepted ones; the ratio is
   * in [0, 1].
   */
  lemma AnalysisProperties(solver: Solver, guess: seq<real>, maxReach: real, resolution: nat)
    requires resolution >= 1
    ensures var a := Analysis(solver, guess, maxReach, resolution);
      var axis := AnalysisAxis(maxReach, resolution);
      var all := Grid(axis, axis);
      && |all| == a.totalPointsTested == resolution * resolution
      && IsSubsequence(a.reachablePoints, all)
      && (forall p :: p in a.reachablePoints <==> p in all && Accepted(solver(p, guess)))
      && 0.0 <= a.reachabilityRatio <= 1.0
  {
    var axis := AnalysisAxis(maxReach, resolution);
    var all := Grid(axis, axis);
    var keep := AcceptedFrom(solver, guess);
    GridLength(axis, axis);
    FilterIsSubsequence(all, keep);
    forall p ensures p in Filter(all, keep) <==> p in all && keep(p) {
      FilterMembership(all, keep, p);
    }
    RatioBounds(|Filter(all, keep)|, resolution * resolution);
  }

  /** The area of the analysis is its ratio times the area of the square [-max, max]^2. */
  lemma AnalysisArea(solver: Solver, guess: seq<real>, maxReach: real, resolution: nat)
    requires resolution >= 1
    ensures var a := Analysis(solver, guess, maxReach, resolution);
      a.workspaceArea == a.reachabilityRatio * SquareArea(maxReach)
  {
    var a := Analysis(solver, guess, maxReach, resolution);
    CellAreaIsRatioTimesSquare(|a.reachablePoints|, resolution, maxReach);
  }

  /** The area of the square [-maxReach, maxReach]^2 that the analysis grid covers. */
  function SquareArea(maxReach: real): real
  {
    (2.0 * maxReach) * (2.0 * maxReach)
  }

  /** A count out of a larger total is a ratio in [0, 1]. */
  lemma RatioBounds(count: nat, total: nat)
    requires count <= total && total > 0
    ensures 0.0 <= (count as real) / (total as real) <= 1.0
  {
  }

  /** count * (2m / R)^2 == (count / R^2) * (2m)^2 */
  lemma CellAreaIsRatioTimesSquare(count: nat, resolution: nat, maxReach: real)
    requires resolution >= 1
    ensures CellsArea(count, resolution, maxReach) ==
      (count as real) / ((resolution * resolution) as real) * SquareArea(maxReach)
  {
    var k, r, s := count as real, resolution as real, 2.0 * maxReach;
    var rr := (resolution * resolution) as real;
    assert rr == r * r;
    var q := s / r;
    assert q * r == s;
    var w := k / rr;
    assert w * rr == k;
    assert s * s == (q * q) * rr by {
      assert s * s == (q * r) * (q * r);
    }
    calc {
      w * (s * s);
      w * ((q * q) * rr);
      (w * rr) * (q * q);
      k * (q * q);
    }
  }

  /** `total_points // 10` is zero exactly for resolutions up to 3. */
  lemma ProgressStepIsZero(resolution: nat)
    ensures (resolution * resolution) / 10 == 0 <==> resolution <= 3
  {
    if resolution >= 4 {
      assert resolution * resolution >= 4 * resolution;
    } else {
      assert resolution * resolution <= 9;
    }
  }

  /** The sample arm of part C: revolute, revolute, prismatic, revolute. */
  const ConfigLinks: seq<real> := [2.0, 1.5, 0.0, 1.0]
  const ConfigKinds: seq<JointType> := [Revolute, Revolute, Prismatic, Revolute]
  const ConfigLimits: seq<(real, real)> := [(-Pi, Pi), (-Pi / 2.0, Pi / 2.0), (0.0, 2.0), (-Pi, Pi)]

  /** The sample arm reaches at most 6.5: links 2 + 1.5 + 0 + 1 plus a prismatic stroke of 2. */
  lemma ConfigMaxReach()
    ensures |PrismaticLimits(ConfigKinds, [Pi, Pi / 2.0, 2.0, Pi])| > 0
    ensures MaxReach(ConfigLinks, ConfigKinds, [Pi, Pi / 2.0, 2.0, Pi]) == 6.5
  {
    var upper := [Pi, Pi / 2.0, 2.0, Pi];
    assert ConfigKinds[..3][..2][..1][..0] == [];
    assert PrismaticLimits(ConfigKinds[..3][..2][..1], upper[..3][..2][..1]) == [];
    assert PrismaticLimits(ConfigKinds[..3][..2], upper[..3][..2]) == [];
    assert PrismaticLimits(ConfigKinds[..3], upper[..3]) == [2.0];
    assert PrismaticLimits(ConfigKinds, upper) == [2.0];
    assert ConfigLinks[..3][..2][..1][..0] == [];
    assert Sum(ConfigLinks[..3][..2][..1]) == 2.0;
    assert Sum(ConfigLinks[..3][..2]) == 3.5;
    assert Sum(ConfigLinks[..3]) == 3.5;
    assert Sum(ConfigLinks) == 4.5;
  }

  /** With every joint at zero the sample arm lies along the x axis with its tip at (4.5, 0). */
  lemma ConfigZeroTip(m: MathLib)
    requires Lawful(m)
    ensures EndPose(m, ConfigKinds, ConfigLinks, Origin, [0.0, 0.0, 0.0, 0.0]) == Pose(Point(4.5, 0.0), 0.0)
  {
    var values := [0.0, 0.0, 0.0, 0.0];
    var links := Links(ConfigLinks, 4);
    ZeroConfigurationIsStraight(m, ConfigKinds, links, values, Origin, 4);
    assert links == ConfigLinks;
    assert StraightLength(ConfigKinds, links, values, 4) == 4.5;
  }

  /** One joint: its type, its limits and its current value. */
  class Joint {
    const kind: JointType
    const minLimit: real
    const maxLimit: real
    var value: real

    constructor (kind: JointType, limits: (real, real), initialValue: real)
      ensures this.kind == kind && minLimit == limits.0 && maxLimit == limits.1 && value == initialValue
    {
      this.kind := kind;
      minLimit, maxLimit := limits.0, limits.1;
      value := initialValue;
    }

    predicate Admits(v: real) {
      minLimit <= v <= maxLimit
    }

    /** `set_value`: accepted and stored exactly when within the limits; otherwise nothing changes. */
    method SetValue(v: real) returns (ok: bool)
      modifies this`value
      ensures ok <==> Admits(v)
      ensures value == if ok then v else old(value)
    {
      if minLimit <= v <= maxLimit {
        value := v;
        ok := true;
      } else {
        ok := false;
      }
    }
  }

  class RoboticArm4DOF {
    const baseLinks: seq<real>
    const joints: seq<Joint>
    const basePosition: Point
    var jointValues: seq<real>
    var fkCalculations: nat
    var ikCalculations: nat

    /** Four distinct joint objects. */
    ghost predicate Valid() {
      |joints| == NumJoints && forall i, j :: 0 <= i < j < |joints| ==> joints[i] != joints[j]
    }

    function Kinds(): (kinds: seq<JointType>)
      ensures |kinds| == |joints|
    {
      seq(|joints|, i requires 0 <= i < |joints| => joints[i].kind)
    }

    function UpperLimits(): (upper: seq<real>)
      ensures |upper| == |joints|
    {
      seq(|joints|, i requires 0 <= i < |joints| => joints[i].maxLimit)
    }

    /** The joints' current values. */
    function Values(): (vs: seq<real>)
      reads joints
      ensures |vs| == |joints|
    {
      seq(|joints|, i reads joints requires 0 <= i < |joints| => joints[i].value)
    }

    /** Four joints built from the first four types and limits, all at 0; the base is at the origin. */
    constructor (baseLinks: seq<real>, jointTypes: seq<JointType>, jointLimits: seq<(real, real)>)
      requires |jointTypes| >= NumJoints && |jointLimits| >= NumJoints
      ensures Valid() && fresh(joints)
      ensures this.baseLinks == baseLinks && basePosition == Origin
      ensures forall i :: 0 <= i < NumJoints ==>
        joints[i].kind == jointTypes[i] && joints[i].minLimit == jointLimits[i].0 &&
        joints[i].maxLimit == jointLimits[i].1 && joints[i].value == 0.0
      ensures jointValues == Zeros(NumJoints)
      ensures fkCalculations == 0 && ikCalculations == 0
    {
      var js: seq<Joint> := [];
      for i := 0 to NumJoints
        invariant |js| == i && fresh(js)
        invariant forall k, l :: 0 <= k < l < i ==> js[k] != js[l]
        invariant forall k :: 0 <= k < i ==>
          js[k].kind == jointTypes[k] && js[k].minLimit == jointLimits[k].0 &&
          js[k].maxLimit == jointLimits[k].1 && js[k].value == 0.0
      {
        var joint := new Joint(jointTypes[i], jointLimits[i], 0.0);
        js := js + [joint];
      }
      this.baseLinks := baseLinks;
      joints := js;
      basePosition := Origin;
      jointValues := Zeros(NumJoints);
      fkCalculations, ikCalculations := 0, 0;
    }

    /**
     * `forward_kinematics`: the fold over the joints, on the given values or else the stored
     * ones.  Returns the end effector and the positions; counts one call.
     */
    method ForwardKinematics(m: MathLib, values: Option<seq<real>>) returns (endEffector: Point, positions: seq<Point>)
      modifies this`fkCalculations
      ensures var v := if values.Some? then values.value else jointValues;
        && positions == JointPositions(m, Kinds(), baseLinks, basePosition, v)
        && endEffector == EndPose(m, Kinds(), baseLinks, basePosition, v).pos
      ensures fkCalculations == old(fkCalculations) + 1
    {
      var v := if values.Some? then values.value else jointValues;
      ghost var kinds, links, start := Kinds(), Links(baseLinks, |joints|), Pose(basePosition, 0.0);
      var n := if |v| < |joints| then |v| else |joints|;
      var pos, angle := basePosition, 0.0;
      positions := [pos];
      for i := 0 to n
        invariant Pose(pos, angle) == PoseAfter(m, kinds, links, v, start, i)
        invariant positions == Positions(m, kinds, links, v, start, i)
        invariant fkCalculations == old(fkCalculations)
      {
        ghost var prev := Pose(pos, angle);
        var kind := joints[i].kind;
        if kind == Revolute {
          angle := angle + v[i];
          var link := if i < |baseLinks| then baseLinks[i] else 1.0;
          pos := pos.Plus(Polar(m, link, angle));
        } else if kind == Prismatic {
          pos := pos.Plus(Polar(m, v[i], angle));
        }
        assert Pose(pos, angle) == Advance(m, kinds[i], links[i], v[i], prev) by {
          assert kinds[i] == kind && links[i] == LinkLength(baseLinks, i);
        }
        FoldStep(m, kinds, links, v, start, i, prev, Pose(pos, angle), positions);
        positions := positions + [pos];
      }
      endEffector := pos;
      fkCalculations := fkCalculations + 1;
    }

    /**
     * `inverse_kinematics`: one optimizer run from the given guess or else the stored values.
     * Success needs the optimizer's success and a residual under the tolerance; the answer is
     * the optimizer's x on success and the guess otherwise.  Every objective evaluation is a
     * forward-kinematics call.
     */
    method InverseKinematics(solver: Solver, target: Point, initialGuess: Option<seq<real>>)
      returns (success: bool, solution: seq<real>)
      modifies this`fkCalculations, this`ikCalculations
      ensures var guess := if initialGuess.Some? then initialGuess.value else jointValues;
        var r := solver(target, guess);
        && (success <==> Accepted(r))
        && solution == (if success then r.x else guess)
        && fkCalculations == old(fkCalculations) + r.evaluations
      ensures ikCalculations == old(ikCalculations) + 1
    {
      var guess := if initialGuess.Some? then initialGuess.value else jointValues;
      var result := solver(target, guess);
      fkCalculations := fkCalculations + result.evaluations;
      ikCalculations := ikCalculations + 1;
      success := result.success && result.fun < Tolerance;
      solution := if success then result.x else guess;
    }

    /**
     * `set_joint_configuration`: each of the first (up to four) values is offered to its joint,
     * which keeps it if it is within limits, even when another value is rejected.  The stored
     * configuration is replaced only when every value was accepted.
     */
    method SetJointConfiguration(values: seq<real>) returns (valid: bool)
      requires Valid()
      modifies this`jointValues, joints
      ensures var n := Active(Kinds(), values);
        && (valid <==> forall i :: 0 <= i < n ==> joints[i].Admits(values[i]))
        && (forall i :: 0 <= i < n ==>
              joints[i].value == if joints[i].Admits(values[i]) then values[i] else old(joints[i].value))
        && (forall i :: n <= i < |joints| ==> joints[i].value == old(joints[i].value))
      ensures jointValues == if valid then values else old(jointValues)
    {
      var n := if |values| < |joints| then |values| else |joints|;
      valid := true;
      for i := 0 to n
        invariant valid <==> forall k :: 0 <= k < i ==> joints[k].Admits(values[k])
        invariant forall k :: 0 <= k < i ==>
          joints[k].value == if joints[k].Admits(values[k]) then values[k] else old(joints[k].value)
        invariant forall k :: i <= k < |joints| ==> joints[k].value == old(joints[k].value)
        invariant jointValues == old(jointValues)
      {
        var ok := joints[i].SetValue(values[i]);
        if !ok {
          valid := false;
        }
      }
      if valid {
        jointValues := values;
      }
    }

    /**
     * `get_workspace_analysis`: without a prismatic joint `max()` has nothing to pick from;
     * otherwise every point of the resolution x resolution grid over [-max_reach, max_reach]^2
     * goes through inverse kinematics from the stored values.  The progress indicator takes
     * the index modulo resolution^2 // 10, which is zero for resolutions 1 to 3, and the ratio
     * divides by resolution^2, which is zero for resolution 0.
     */
    method GetWorkspaceAnalysis(solver: Solver, resolution: nat) returns (r: Result<WorkspaceAnalysis, AnalysisError>)
      modifies this`fkCalculations, this`ikCalculations
      ensures |PrismaticLimits(Kinds(), UpperLimits())| == 0 ==>
        r == Err(NoPrismaticJoint) && fkCalculations == old(fkCalculations) && ikCalculations == old(ikCalculations)
      ensures |PrismaticLimits(Kinds(), UpperLimits())| > 0 ==>
        var maxReach := MaxReach(baseLinks, Kinds(), UpperLimits());
        && (resolution == 0 ==>
              r == Err(ZeroDivision) && fkCalculations == old(fkCalculations) && ikCalculations == old(ikCalculations))
        && (1 <= resolution <= 3 ==>
              && r == Err(ZeroDivision)
              && fkCalculations == old(fkCalculations) + solver(Point(-maxReach, -maxReach), jointValues).evaluations
              && ikCalculations == old(ikCalculations) + 1)
        && (resolution >= 4 ==>
              var axis := AnalysisAxis(maxReach, resolution);
              && r == Ok(Analysis(solver, jointValues, maxReach, resolution))
              && fkCalculations == old(fkCalculations) + Evaluations(solver, jointValues, Grid(axis, axis))
              && ikCalculations == old(ikCalculations) + resolution * resolution)
    {
      var limits := PrismaticLimits(Kinds(), UpperLimits());
      if |limits| == 0 {
        return Err(NoPrismaticJoint);
      }
      var maxReach := Sum(baseLinks) + MaxOf(limits);
      var axis := Linspace(-maxReach, maxReach, resolution);
      var total := resolution * resolution;
      ProgressStepIsZero(resolution);
      if resolution >= 1 {
        LinspaceFirst(-maxReach, maxReach, resolution);
      }
      var reachable, completed := ScanGrid(solver, axis, total);
      if !completed {
        return Err(ZeroDivision);
      }
      if total == 0 {
        return Err(ZeroDivision);
      }
      assert maxReach == MaxReach(baseLinks, Kinds(), UpperLimits());
      assert axis == AnalysisAxis(maxReach, resolution);
      GridLength(axis, axis);
      r := Ok(Summary(reachable, resolution, maxReach));
    }

    /**
     * The nested loops of `get_workspace_analysis`: inverse kinematics from the stored values
     * at every grid point, x outer and y inner, keeping the accepted points.  The progress
     * check after the first point divides by total // 10; when that is zero the scan stops
     * there (`completed` is false).
     */
    method ScanGrid(solver: Solver, axis: seq<real>, total: nat) returns (reachable: seq<Point>, completed: bool)
      requires total == |axis| * |axis|
      modifies this`fkCalculations, this`ikCalculations
      ensures completed <==> |axis| == 0 || total / 10 != 0
      ensures completed ==>
        && reachable == Filter(Grid(axis, axis), AcceptedFrom(solver, jointValues))
        && fkCalculations == old(fkCalculations) + Evaluations(solver, jointValues, Grid(axis, axis))
        && ikCalculations == old(ikCalculations) + |Grid(axis, axis)|
      ensures !completed ==>
        && fkCalculations == old(fkCalculations) + solver(Point(axis[0], axis[0]), jointValues).evaluations
        && ikCalculations == old(ikCalculations) + 1
    {
      ghost var guess := jointValues;
      ghost var keep := AcceptedFrom(solver, guess);
      ghost var all: seq<Point> := [];
      reachable := [];
      for i := 0 to |axis|
        invariant all == Grid(axis[..i], axis)
        invariant reachable == Filter(all, keep)
        invariant ikCalculations == old(ikCalculations) + |all|
        invariant fkCalculations == old(fkCalculations) + Evaluations(solver, guess, all)
        invariant i > 0 ==> total / 10 != 0
      {
        GridRowStart(axis, axis, i);
        for j := 0 to |axis|
          invariant all == Grid(axis[..i], axis) + Row(axis[i], axis[..j])
          invariant reachable == Filter(all, keep)
          invariant ikCalculations == old(ikCalculations) + |all|
          invariant fkCalculations == old(fkCalculations) + Evaluations(solver, guess, all)
          invariant i > 0 || j > 0 ==> total / 10 != 0
        {
          var p := Point(axis[i], axis[j]);
          var success, _ := InverseKinematics(solver, p, None);
          if success {
            reachable := reachable + [p];
          }
          if total / 10 == 0 {
            assert i == 0 && j == 0 && all == [] by {
              assert axis[..0] == [];
            }
            return reachable, false;
          }
          assert reachable == Filter(all + [p], keep) by {
            FilterSnoc(all, keep, p);
          }
          assert Evaluations(solver, guess, all + [p]) == Evaluations(solver, guess, all) + solver(p, guess).evaluations by {
            EvaluationsSnoc(solver, guess, all, p);
          }
          assert all + [p] == Grid(axis[..i], axis) + Row(axis[i], axis[..j + 1]) by {
            GridStep(axis, axis, i, j);
          }
          all := all + [p];
        }
        assert all == Grid(axis[..i + 1], axis) by {
          GridNextRow(axis, axis, i);
        }
      }
      assert axis[..|axis|] == axis;
      completed := true;
    }
  }

  /** `create_4dof_arm_configuration`: the sample arm, all joints at zero. */
  method Create4DofArmConfiguration() returns (arm: RoboticArm4DOF)
    ensures arm.Valid() && fresh(arm) && fresh(arm.joints)
    ensures arm.baseLinks == ConfigLinks && arm.Kinds() == ConfigKinds
    ensures forall i :: 0 <= i < NumJoints ==>
      (arm.joints[i].minLimit, arm.joints[i].maxLimit) == ConfigLimits[i] && arm.joints[i].value == 0.0
    ensures arm.jointValues == Zeros(NumJoints) && arm.basePosition == Origin
  {
    arm := new RoboticArm4DOF(ConfigLinks, ConfigKinds, ConfigLimits);
  }
}
