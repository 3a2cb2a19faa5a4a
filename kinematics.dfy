// Forward kinematics of a planar serial chain as a left-to-right fold over the joints,
// shared by the 3-link revolute arm and the mixed revolute/prismatic 4-DOF arm,
// and the optimizer that both arms hand inverse kinematics to.

module Kinematics {
  import opened Geometry

  /**
   * A joint's `joint_type`.  The code branches on 'revolute' and 'prismatic';
   * a joint of any other type moves neither the position nor the heading.
   */
  datatype JointType = Revolute | Prismatic | Unrecognised

  /** The running state of the forward-kinematics loop: `current_pos` and `current_angle`. */
  datatype Pose = Pose(pos: Point, angle: real)

  /**
   * One joint.  A revolute joint turns the heading by its value and then moves
   * `link` along the new heading; a prismatic joint moves its own value along the
   * current heading and leaves the heading alone.
   */
  function Advance(m: MathLib, kind: JointType, link: real, value: real, p: Pose): Pose {
    match kind
    case Revolute =>
      var heading := p.angle + value;
      Pose(p.pos.Plus(Polar(m, link, heading)), heading)
    case Prismatic => Pose(p.pos.Plus(Polar(m, value, p.angle)), p.angle)
    case Unrecognised => p
  }

  /** The pose reached after the first `n` joints, starting from `start`. */
  function PoseAfter(m: MathLib, kinds: seq<JointType>, links: seq<real>, values: seq<real>,
                     start: Pose, n: nat): Pose
    requires n <= |kinds| && n <= |links| && n <= |values|
  {
    if n == 0 then start
    else Advance(m, kinds[n - 1], links[n - 1], values[n - 1], PoseAfter(m, kinds, links, values, start, n - 1))
  }

  /** The `n + 1` joint positions: the start, then the position after each joint. */
  function Positions(m: MathLib, kinds: seq<JointType>, links: seq<real>, values: seq<real>,
                     start: Pose, n: nat): (ps: seq<Point>)
    requires n <= |kinds| && n <= |links| && n <= |values|
    ensures |ps| == n + 1 && ps[0] == start.pos
    ensures ps[n] == PoseAfter(m, kinds, links, values, start, n).pos
  {
    if n == 0 then [start.pos]
    else Positions(m, kinds, links, values, start, n - 1) + [PoseAfter(m, kinds, links, values, start, n).pos]
  }

  /** Entry k of the position list is the position after the first k joints. */
  lemma {:induction false} PositionsAt(m: MathLib, kinds: seq<JointType>, links: seq<real>, values: seq<real>,
                                       start: Pose, n: nat, k: nat)
    requires n <= |kinds| && n <= |links| && n <= |values| && k <= n
    ensures Positions(m, kinds, links, values, start, n)[k] == PoseAfter(m, kinds, links, values, start, k).pos
  {
    if k < n {
      PositionsAt(m, kinds, links, values, start, n - 1, k);
    }
  }

  /** Sum of the values of the revolute joints among the first `n`. */
  function RevoluteSum(kinds: seq<JointType>, values: seq<real>, n: nat): real
    requires n <= |kinds| && n <= |values|
  {
    if n == 0 then 0.0
    else RevoluteSum(kinds, values, n - 1) + (if kinds[n - 1] == Revolute then values[n - 1] else 0.0)
  }

  /** Length the chain stretches to when straight: revolute links plus prismatic extensions. */
  function StraightLength(kinds: seq<JointType>, links: seq<real>, values: seq<real>, n: nat): real
    requires n <= |kinds| && n <= |links| && n <= |values|
  {
    if n == 0 then 0.0
    else
      StraightLength(kinds, links, values, n - 1) +
      match kinds[n - 1]
      case Revolute => links[n - 1]
      case Prismatic => values[n - 1]
      case Unrecognised => 0.0
  }

  /** Only revolute joints turn the chain: the heading is the start heading plus their values. */
  lemma {:induction false} HeadingIsRevoluteSum(m: MathLib, kinds: seq<JointType>, links: seq<real>,
                                                values: seq<real>, start: Pose, n: nat)
    requires n <= |kinds| && n <= |links| && n <= |values|
    ensures PoseAfter(m, kinds, links, values, start, n).angle == start.angle + RevoluteSum(kinds, values, n)
  {
    if n > 0 {
      HeadingIsRevoluteSum(m, kinds, links, values, start, n - 1);
    }
  }

  /** In a chain of revolute joints only, the heading after `n` joints is the prefix sum of their values. */
  lemma {:induction false} AllRevoluteSum(kinds: seq<JointType>, values: seq<real>, n: nat)
    requires n <= |kinds| && n <= |values|
    requires forall i :: 0 <= i < |kinds| ==> kinds[i] == Revolute
    ensures RevoluteSum(kinds, values, n) == Sum(values[..n])
  {
    if n > 0 {
      AllRevoluteSum(kinds, values, n - 1);
      assert values[..n][..n - 1] == values[..n - 1];
    }
  }

  /**
   * With every joint value zero and a start heading of zero, the chain lies along
   * the x axis: it ends `StraightLength` to the right of the start, still heading 0.
   */
  lemma {:induction false} ZeroConfigurationIsStraight(m: MathLib, kinds: seq<JointType>, links: seq<real>,
                                                       values: seq<real>, start: Point, n: nat)
    requires Lawful(m)
    requires n <= |kinds| && n <= |links| && n <= |values|
    requires forall i :: 0 <= i < n ==> values[i] == 0.0
    ensures PoseAfter(m, kinds, links, values, Pose(start, 0.0), n) ==
            Pose(Point(start.x + StraightLength(kinds, links, values, n), start.y), 0.0)
  {
    if n > 0 {
      ZeroConfigurationIsStraight(m, kinds, links, values, start, n - 1);
    }
  }

  /** The fold only looks at the first `n` joints: truncating the inputs changes nothing. */
  lemma {:induction false} PoseAfterPrefix(m: MathLib, kinds: seq<JointType>, links: seq<real>,
                                           values: seq<real>, start: Pose, n: nat, k: nat)
    requires k <= n <= |kinds| && n <= |links| && n <= |values|
    ensures PoseAfter(m, kinds[..n], links[..n], values[..n], start, k) ==
            PoseAfter(m, kinds, links, values, start, k)
  {
    if k > 0 {
      PoseAfterPrefix(m, kinds, links, values, start, n, k - 1);
    }
  }
}

module Optimization {
  import opened Geometry

  /**
   * What `scipy.optimize.minimize` (SLSQP) reports: `success`, the minimiser `x`,
   * the objective value `fun`, and how many times it evaluated the objective.
   */
  datatype OptResult = OptResult(success: bool, x: seq<real>, fun: real, evaluations: nat)

  /**
   * One arm's SLSQP run, with its objective and joint-limit constraints fixed, as a
   * function of the target point and the initial guess.  Its numerics are not modelled.
   */
  type Solver = (Point, seq<real>) -> OptResult

  /** SLSQP returns a minimiser of the same shape as its initial guess. */
  ghost predicate KeepsShape(solver: Solver) {
    forall p, guess :: |solver(p, guess).x| == |guess|
  }
}
