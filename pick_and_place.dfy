// The pick-and-place planner of part B (`PickAndPlaceSimulation` in partb/pick_and_place.py):
// it keeps lists of objects and target locations, interpolates joint paths linearly, and
// plans one joint-angle sequence that goes home, carries each object to its target, and
// comes home again.  The plotting and the animation timer are not modelled.

module PickAndPlace {
  import opened Wrappers
  import opened Geometry
  import opened Optimization
  import opened RobotArm

  /** Frames per interpolated move (`steps=50`). */
  const PathSteps: nat := 50
  /** Frames held still while picking or placing. */
  const PauseFrames: nat := 10

  /** `start + t * (end - start)`, joint by joint. */
  function Lerp(start: seq<real>, end: seq<real>, t: real): (v: seq<real>)
    requires |start| == |end|
    ensures |v| == |start|
  {
    seq(|start|, k requires 0 <= k < |start| => start[k] + t * (end[k] - start[k]))
  }

  /** The frames of `interpolate_path`: frame i is taken at t = i / (steps - 1). */
  function Interpolation(start: seq<real>, end: seq<real>, steps: nat): (path: seq<seq<real>>)
    requires |start| == |end| && steps != 1
    ensures |path| == steps
  {
    seq(steps, i requires 0 <= i < steps => Lerp(start, end, (i as real) / ((steps - 1) as real)))
  }

  /** n copies of one configuration. */
  function Repeat(v: seq<real>, n: nat): (r: seq<seq<real>>)
    ensures |r| == n && forall i :: 0 <= i < n ==> r[i] == v
  {
    seq(n, _ => v)
  }

  /** A value between two ends, whichever way round they are. */
  predicate Between(a: real, x: real, b: real) {
    (a <= b ==> a <= x <= b) && (b <= a ==> b <= x <= a)
  }

  /** Going a fraction t of the way up from lo to hi stays within [lo, hi]. */
  lemma ScaleWithin(lo: real, hi: real, t: real)
    requires 0.0 <= t <= 1.0 && lo <= hi
    ensures lo <= lo + t * (hi - lo) <= hi
  {
    assert hi - (lo + t * (hi - lo)) == (1.0 - t) * (hi - lo);
  }

  /** A point moves from s to e along the segment as t goes from 0 to 1. */
  lemma LerpBetween(s: real, e: real, t: real)
    requires 0.0 <= t <= 1.0
    ensures Between(s, s + t * (e - s), e)
  {
    if s <= e {
      ScaleWithin(s, e, t);
    } else {
      ScaleWithin(e, s, 1.0 - t);
      assert s + t * (e - s) == e + (1.0 - t) * (s - e);
    }
  }

  /** With at least two steps the path starts at `start` and ends exactly at `end`. */
  lemma InterpolationEnds(start: seq<real>, end: seq<real>, steps: nat)
    requires |start| == |end| && steps >= 2
    ensures Interpolation(start, end, steps)[0] == start
    ensures Interpolation(start, end, steps)[steps - 1] == end
  {
    var path := Interpolation(start, end, steps);
    assert path[0] == Lerp(start, end, 0.0);
    var d := (steps - 1) as real;
    assert d / d == 1.0;
    assert path[steps - 1] == Lerp(start, end, 1.0);
    assert Lerp(start, end, 0.0) == start;
    assert Lerp(start, end, 1.0) == end;
  }

  /** Every joint value along the path stays between its start and end values. */
  lemma InterpolationBetween(start: seq<real>, end: seq<real>, steps: nat, i: nat, k: nat)
    requires |start| == |end| && steps != 1 && i < steps && k < |start|
    ensures Between(start[k], Interpolation(start, end, steps)[i][k], end[k])
  {
    var d := (steps - 1) as real;
    var t := (i as real) / d;
    assert t * d == i as real;
    assert 0.0 <= t <= 1.0;
    LerpBetween(start[k], end[k], t);
  }

  /** Where the planner is: the frames so far, the arm's current angles, and the objects. */
  datatype Plan = Plan(frames: seq<seq<real>>, current: seq<real>, objects: seq<Point>)

  /**
   * One object of `plan_pick_and_place`: when the pick IK succeeds, move there and pause;
   * then, when the place IK also succeeds, move to the target, pause, and put the object
   * on the target.  Both IK calls are seeded with the arm's stored angles.
   */
  function Visit(solver: Solver, seed: seq<real>, targets: seq<Point>, st: Plan, i: nat): (r: Plan)
    requires KeepsShape(solver) && i < |st.objects| && i < |targets| && |st.current| == |seed|
    ensures |r.current| == |seed| && |r.objects| == |st.objects|
  {
    var pick := solver(st.objects[i], seed);
    if !pick.success then st
    else
      var picked := st.frames + Interpolation(st.current, pick.x, PathSteps) + Repeat(pick.x, PauseFrames);
      var place := solver(targets[i], seed);
      if !place.success then Plan(picked, pick.x, st.objects)
      else Plan(picked + Interpolation(pick.x, place.x, PathSteps) + Repeat(place.x, PauseFrames),
                place.x, st.objects[i := targets[i]])
  }

  /** The plan after the first n objects; objects without a target are skipped. */
  function PlanUpTo(solver: Solver, angles: seq<real>, objects: seq<Point>, targets: seq<Point>, n: nat): (r: Plan)
    requires KeepsShape(solver) && n <= |objects|
    ensures |r.current| == |angles| && |r.objects| == |objects|
  {
    if n == 0 then
      Plan(Interpolation(angles, Zeros(|angles|), PathSteps), Zeros(|angles|), objects)
    else
      var st := PlanUpTo(solver, angles, objects, targets, n - 1);
      if n - 1 < |targets| then Visit(solver, angles, targets, st, n - 1) else st
  }

  /** The whole sequence: home, every object, and home again. */
  function PlanFrames(solver: Solver, angles: seq<real>, objects: seq<Point>, targets: seq<Point>): seq<seq<real>>
    requires KeepsShape(solver)
  {
    var st := PlanUpTo(solver, angles, objects, targets, |objects|);
    st.frames + Interpolation(st.current, Zeros(|angles|), PathSteps)
  }

  /** Whether object i is carried: it has a target and both its IK calls succeed. */
  predicate Carried(solver: Solver, angles: seq<real>, objects: seq<Point>, targets: seq<Point>, i: nat)
    requires i < |objects|
  {
    i < |targets| && solver(objects[i], angles).success && solver(targets[i], angles).success
  }

  /** How many of the first n objects are reached (they have a target and their pick IK succeeds). */
  function Picked(solver: Solver, angles: seq<real>, objects: seq<Point>, targets: seq<Point>, n: nat): nat
    requires n <= |objects|
  {
    if n == 0 then 0
    else Picked(solver, angles, objects, targets, n - 1)
         + (if n - 1 < |targets| && solver(objects[n - 1], angles).success then 1 else 0)
  }

  /** How many of the first n objects are carried. */
  function Placed(solver: Solver, angles: seq<real>, objects: seq<Point>, targets: seq<Point>, n: nat): nat
    requires n <= |objects|
  {
    if n == 0 then 0
    else Placed(solver, angles, objects, targets, n - 1)
         + (if Carried(solver, angles, objects, targets, n - 1) then 1 else 0)
  }

  /**
   * The plan after n objects: 50 frames home plus 60 per reached object and 60 more per
   * carried one; it starts at the stored angles and its last frame is the current angles
   * (the motion never jumps); the first n objects sit on their targets exactly when
   * carried, and the rest are untouched.
   */
  lemma {:induction false} PlanUpToFacts(solver: Solver, angles: seq<real>, objects: seq<Point>,
                                         targets: seq<Point>, n: nat)
    requires KeepsShape(solver) && n <= |objects|
    ensures var st := PlanUpTo(solver, angles, objects, targets, n);
      && |st.frames| == PathSteps + 60 * Picked(solver, angles, objects, targets, n)
                                  + 60 * Placed(solver, angles, objects, targets, n)
      && st.frames[0] == angles
      && st.frames[|st.frames| - 1] == st.current
      && (forall j :: n <= j < |objects| ==> st.objects[j] == objects[j])
      && (forall j :: 0 <= j < n ==>
            st.objects[j] == if Carried(solver, angles, objects, targets, j) then targets[j] else objects[j])
  {
    if n == 0 {
      InterpolationEnds(angles, Zeros(|angles|), PathSteps);
    } else {
      PlanUpToFacts(solver, angles, objects, targets, n - 1);
      var st := PlanUpTo(solver, angles, objects, targets, n - 1);
      if n - 1 < |targets| {
        VisitFacts(solver, angles, targets, st, n - 1);
      }
    }
  }

  /** One visit appends 0, 60 or 120 frames, keeps the motion continuous and moves only object i. */
  lemma VisitFacts(solver: Solver, seed: seq<real>, targets: seq<Point>, st: Plan, i: nat)
    requires KeepsShape(solver) && i < |st.objects| && i < |targets| && |st.current| == |seed|
    requires |st.frames| > 0 && st.frames[|st.frames| - 1] == st.current
    ensures var r := Visit(solver, seed, targets, st, i);
      var pick := solver(st.objects[i], seed).success;
      var place := solver(targets[i], seed).success;
      && |r.frames| == |st.frames| + (if pick then 60 else 0) + (if pick && place then 60 else 0)
      && r.frames[..|st.frames|] == st.frames
      && r.frames[|r.frames| - 1] == r.current
      && r.objects == if pick && place then st.objects[i := targets[i]] else st.objects
  {
    var pick := solver(st.objects[i], seed);
    if pick.success {
      InterpolationEnds(st.current, pick.x, PathSteps);
      var place := solver(targets[i], seed);
      if place.success {
        InterpolationEnds(pick.x, place.x, PathSteps);
      }
    }
  }

  /**
   * The plan's length is 100 frames (home and back) plus 60 per reached object and 60 per
   * carried object; it starts at the stored angles and ends at home (all zeros).
   */
  lemma PlanShape(solver: Solver, angles: seq<real>, objects: seq<Point>, targets: seq<Point>)
    requires KeepsShape(solver)
    ensures var frames := PlanFrames(solver, angles, objects, targets);
      && |frames| == 2 * PathSteps + 60 * Picked(solver, angles, objects, targets, |objects|)
                                   + 60 * Placed(solver, angles, objects, targets, |objects|)
      && frames[0] == angles
      && frames[|frames| - 1] == Zeros(|angles|)
  {
    var st := PlanUpTo(solver, angles, objects, targets, |objects|);
    PlanUpToFacts(solver, angles, objects, targets, |objects|);
    InterpolationEnds(st.current, Zeros(|angles|), PathSteps);
  }

  /** After planning, object i sits on target i exactly when it was carried; nothing else moves. */
  lemma PlanMovesCarriedObjects(solver: Solver, angles: seq<real>, objects: seq<Point>, targets: seq<Point>)
    requires KeepsShape(solver)
    ensures var moved := PlanUpTo(solver, angles, objects, targets, |objects|).objects;
      && |moved| == |objects|
      && forall j :: 0 <= j < |objects| ==>
           moved[j] == if Carried(solver, angles, objects, targets, j) then targets[j] else objects[j]
  {
    PlanUpToFacts(solver, angles, objects, targets, |objects|);
  }

  /** Placed objects were picked first, and no more objects are picked than have a target. */
  lemma {:induction false} PlacedWithinPicked(solver: Solver, angles: seq<real>, objects: seq<Point>,
                                              targets: seq<Point>, n: nat)
    requires n <= |objects|
    ensures Placed(solver, angles, objects, targets, n) <= Picked(solver, angles, objects, targets, n)
    ensures Picked(solver, angles, objects, targets, n) <= if n < |targets| then n else |targets|
  {
    if n > 0 {
      PlacedWithinPicked(solver, angles, objects, targets, n - 1);
    }
  }

  class PickAndPlaceSimulation {
    const robot: RoboticArm
    var objects: seq<Point>
    var targetLocations: seq<Point>
    var animationData: seq<seq<real>>

    /** No objects, no targets and no frames yet. */
    constructor (robot: RoboticArm)
      ensures this.robot == robot
      ensures objects == [] && targetLocations == [] && animationData == []
    {
      this.robot := robot;
      objects := [];
      targetLocations := [];
      animationData := [];
    }

    /** `add_object`: appends an object to pick up. */
    method AddObject(p: Point)
      modifies this`objects
      ensures objects == old(objects) + [p]
    {
      objects := objects + [p];
    }

    /** `add_target`: appends a location to place an object on. */
    method AddTarget(p: Point)
      modifies this`targetLocations
      ensures targetLocations == old(targetLocations) + [p]
    {
      targetLocations := targetLocations + [p];
    }

    /**
     * `interpolate_path`: `steps` frames evenly spaced from start to end.  With a single
     * step the division by steps - 1 fails, which is None here.
     */
    method InterpolatePath(start: seq<real>, end: seq<real>, steps: nat) returns (path: Option<seq<seq<real>>>)
      requires |start| == |end|
      ensures path.None? <==> steps == 1
      ensures path.Some? ==> path.value == Interpolation(start, end, steps)
    {
      if steps == 1 {
        return None;
      }
      var frames: seq<seq<real>> := [];
      var i := 0;
      while i < steps
        invariant 0 <= i <= steps
        invariant frames == Interpolation(start, end, steps)[..i]
      {
        var t := (i as real) / ((steps - 1) as real);
        frames := frames + [Lerp(start, end, t)];
        i := i + 1;
      }
      path := Some(frames);
    }

    /** The pause of a pick or a place: the same configuration appended ten times. */
    method Pause(sequence: seq<seq<real>>, angles: seq<real>) returns (longer: seq<seq<real>>)
      ensures longer == sequence + Repeat(angles, PauseFrames)
    {
      longer := sequence;
      for k := 0 to PauseFrames
        invariant longer == sequence + Repeat(angles, k)
      {
        longer := longer + [angles];
      }
    }

    /**
     * `plan_pick_and_place`: the frames from the stored angles home, through every object
     * that has a target, and home again; carried objects are moved onto their targets.
     */
    method PlanPickAndPlace(solver: Solver) returns (sequence: seq<seq<real>>)
      requires KeepsShape(solver) && |robot.jointAngles| == robot.numJoints
      modifies this`objects
      ensures sequence == PlanFrames(solver, robot.jointAngles, old(objects), targetLocations)
      ensures objects == PlanUpTo(solver, robot.jointAngles, old(objects), targetLocations, |old(objects)|).objects
    {
      var angles := robot.jointAngles;
      var home := Zeros(robot.numJoints);
      var toHome := InterpolatePath(angles, home, PathSteps);
      sequence := toHome.value;
      var current := home;
      ghost var original := objects;
      for i := 0 to |objects|
        invariant |objects| == |original|
        invariant PlanUpTo(solver, angles, original, targetLocations, i) == Plan(sequence, current, objects)
        invariant forall j :: i <= j < |objects| ==> objects[j] == original[j]
      {
        if i < |targetLocations| {
          var target := targetLocations[i];
          var pick := robot.InverseKinematics(solver, objects[i], None);
          if pick.Some? {
            var toPick := InterpolatePath(current, pick.value, PathSteps);
            sequence := sequence + toPick.value;
            current := pick.value;
            sequence := Pause(sequence, current);
            var place := robot.InverseKinematics(solver, target, None);
            if place.Some? {
              var toPlace := InterpolatePath(current, place.value, PathSteps);
              sequence := sequence + toPlace.value;
              current := place.value;
              sequence := Pause(sequence, current);
              objects := objects[i := target];
            }
          }
        }
      }
      var back := InterpolatePath(current, home, PathSteps);
      sequence := sequence + back.value;
    }

    /** `run_simulation`: plans the motion and stores it as the animation's frames. */
    method RunSimulation(solver: Solver)
      requires KeepsShape(solver) && |robot.jointAngles| == robot.numJoints
      modifies this`objects, this`animationData
      ensures animationData == PlanFrames(solver, robot.jointAngles, old(objects), targetLocations)
      ensures objects == PlanUpTo(solver, robot.jointAngles, old(objects), targetLocations, |old(objects)|).objects
    {
      animationData := PlanPickAndPlace(solver);
    }

    /**
     * `update_animation`: for a frame within the animation, sets the arm to that frame's
     * angles and returns the joint positions to draw; a frame past the end changes nothing.
     */
    method UpdateAnimation(m: MathLib, frame: nat) returns (positions: Option<seq<Point>>)
      requires robot.Valid()
      requires frame < |animationData| ==> |animationData[frame]| >= robot.numJoints
      modifies robot`jointAngles
      ensures positions.Some? <==> frame < |animationData|
      ensures frame < |animationData| ==> robot.jointAngles == animationData[frame]
      ensures frame >= |animationData| ==> robot.jointAngles == old(robot.jointAngles)
      ensures positions.Some? ==> positions.value == ArmPositions(m, robot.linkLengths, robot.jointAngles)
    {
      if frame < |animationData| {
        robot.SetJointAngles(animationData[frame]);
        var ps := robot.GetJointPositions(m);
        positions := Some(ps);
      } else {
        positions := None;
      }
    }
  }
}
