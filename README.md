# Robotic arm kinematics, pick-and-place and conveyor sorting, in Dafny

A Dafny model of the core of a robotics course assignment (assignment 1, parts B and C).
Part B is a planar arm with revolute joints: forward kinematics as a cumulative-angle
chain, inverse kinematics handed to SLSQP, a reachability test, a sampled workspace,
a workspace visualiser, and a pick-and-place planner. Part C is a 4-DOF arm mixing
revolute and prismatic joints, plus a conveyor-belt sorting system built on it. The
sorting system has a belt that spawns and moves objects, a simulated detector, and a
state machine that picks objects and carries them to their sorting zones.

Files and modules:

- `geometry.dfy`: `Wrappers` (Option, Result) and `Geometry`. `Geometry` holds points,
  sums, `linspace`, min and max, and the point grid the nested sampling loops visit.
  cos, sin and sqrt come in as a `MathLib` value.
- `kinematics.dfy`: `Kinematics`, the forward-kinematics fold over a chain of revolute
  and prismatic joints, shared by both arms. `Optimization` is the SLSQP interface as a
  `Solver` function value.
- `seqs.dfy`: `Seqs`, the list facts the other modules need (subsequences, filtering,
  `list.remove`, removal during a loop over a copy).
- `robot_arm.dfy`: `RobotArm`, the part B arm (class `RoboticArm`).
- `workspace_visualization.dfy`: `Workspace`, the `WorkspaceVisualizer` class and the
  workspace metrics.
- `pick_and_place.dfy`: `PickAndPlace`, the path interpolation and the
  `PickAndPlaceSimulation` planner.
- `robotic_arm_4dof.dfy`: `Arm4Dof`, the `Joint` and `RoboticArm4DOF` classes, the
  workspace analysis and the sample configuration.
- `conveyor.dfy`: `Conveyor`, the conveyor objects, the belt, detection and the
  `SortingSystem` state machine.

Classes keep the source's mutable fields. Arm angles, belt object lists, counters and
the arm state are class fields that the methods update. Most methods' contracts tie
their result or new state to a specification function, and lemmas prove properties of
those functions. The sorting system's movement steps abstract the motion and state only
their counter invariant (see "Left out").

Some behaviour of the code is modelled as written:

- The 4-DOF workspace analysis fails when there is no prismatic joint, because `max()`
  of an empty list raises.
- It also fails for resolution 0 (division by zero in the ratio). For resolutions 1 to
  3 it fails after the first IK call, because the progress indicator takes the index
  modulo `total_points // 10`, which is 0. These failures are `Err` results.
- `interpolate_path` divides by `steps - 1`, so it fails for `steps == 1`.
- `execute_sort` compares the held object with itself, so every sort counts as correct.
  The model keeps `correct_sorts == objects_sorted` as an invariant, and sort accuracy
  is 1 once anything is sorted.
- The belt loop removes objects from the list while iterating over a copy, with
  `list.remove`. On a dataclass that call uses value equality. Every object the loop
  keeps is picked or lies at or before the end of the belt, while a removed object lies
  past the end and is unpicked. So no kept object can equal a removed one, and removal
  by value agrees with removal of that very object, which is what the model does.

## Model

| member | source | states |
|---|---|---|
| Geometry.Zeros | RoboticsSem5SarthakMDM23101B0019-master/assignment1/partb/robot_arm.py:24 | `np.zeros(n)`: n entries, every one 0.0 |
| Geometry.Linspace | RoboticsSem5SarthakMDM23101B0019-master/assignment1/partb/robot_arm.py:122-123 | `np.linspace(lo, hi, n)`: exactly n samples |
| Geometry.LinspaceEnds | RoboticsSem5SarthakMDM23101B0019-master/assignment1/partb/robot_arm.py:122-123 | with at least two samples the first is `lo` and the last is `hi` |
| Geometry.LinspaceWithin | RoboticsSem5SarthakMDM23101B0019-master/assignment1/partb/robot_arm.py:122-123 | every sample lies between `lo` and `hi` |
| Geometry.MaxOf | RoboticsSem5SarthakMDM23101B0019-master/assignment1/partb/workspace_visualization.py:163 | `np.max`: a member of the list that no entry exceeds |
| Geometry.MinOf | RoboticsSem5SarthakMDM23101B0019-master/assignment1/partb/workspace_visualization.py:164 | `np.min`: a member of the list that exceeds no entry |
| Geometry.SumNonNegative | RoboticsSem5SarthakMDM23101B0019-master/assignment1/partb/robot_arm.py:106 | the sum of non-negative link lengths (the maximum reach) is non-negative |
| Geometry.SqrtCompare | RoboticsSem5SarthakMDM23101B0019-master/assignment1/partb/robot_arm.py:105-109 | comparing `sqrt(v)` with a non-negative bound is comparing v with the bound squared, both ways |
| Geometry.GridIndex | RoboticsSem5SarthakMDM23101B0019-master/assignment1/partb/robot_arm.py:128-130 | the nested x/y loops test len(xs)·len(ys) points and point i·len(ys)+j is (xs[i], ys[j]) |
| Geometry.GridLength | RoboticsSem5SarthakMDM23101B0019-master/assignment1/partb/robot_arm.py:128-130 | the nested loops test len(xs)·len(ys) points |
| Seqs.FilterIsSubsequence | RoboticsSem5SarthakMDM23101B0019-master/assignment1/partb/robot_arm.py:128-135 | a list built by appending the points that pass a test is an order-preserving subsequence of the sampled points |
| Seqs.FilterMembership | RoboticsSem5SarthakMDM23101B0019-master/assignment1/partb/robot_arm.py:128-135 | a point is in the filtered list exactly when it was sampled and passes |
| Seqs.SubsequenceDistinct | RoboticsSem5SarthakMDM23101B0019-master/assignment1/partc/conveyor_sorting_system.py:79-85 | a subsequence of a list without repeats has no repeats (the belt never holds an object twice) |
| Seqs.RemoveFirst | RoboticsSem5SarthakMDM23101B0019-master/assignment1/partc/conveyor_sorting_system.py:85 | `list.remove(x)` takes exactly one element out |
| Seqs.RemoveFirstAt | RoboticsSem5SarthakMDM23101B0019-master/assignment1/partc/conveyor_sorting_system.py:85 | removing x from `a + [x] + b` where x is not in a leaves `a + b` |
| Seqs.SurvivorsShape | RoboticsSem5SarthakMDM23101B0019-master/assignment1/partc/conveyor_sorting_system.py:79-85 | on a list without repeats, after visiting i objects the list is the kept part of the visited prefix followed by the unvisited rest |
| Seqs.SurvivorsNext | RoboticsSem5SarthakMDM23101B0019-master/assignment1/partc/conveyor_sorting_system.py:79-85 | the object the loop over the copy visits next has not been removed yet, so `remove` never fails |
| Kinematics.Positions | RoboticsSem5SarthakMDM23101B0019-master/assignment1/partc/robotic_arm_4dof.py:90-117 | the recorded positions: one per joint plus the base, starting at the base and ending at the pose after the last joint |
| Kinematics.PositionsAt | RoboticsSem5SarthakMDM23101B0019-master/assignment1/partc/robotic_arm_4dof.py:90-117 | entry k of the recorded positions is the position after the first k joints |
| Kinematics.HeadingIsRevoluteSum | RoboticsSem5SarthakMDM23101B0019-master/assignment1/partc/robotic_arm_4dof.py:92-97 | the heading after n joints is the start heading plus the values of the revolute joints among them; prismatic joints never turn |
| Kinematics.AllRevoluteSum | RoboticsSem5SarthakMDM23101B0019-master/assignment1/partb/robot_arm.py:46 | for an all-revolute chain that sum is the plain sum of the angles (`np.cumsum`) |
| Kinematics.ZeroConfigurationIsStraight | RoboticsSem5SarthakMDM23101B0019-master/assignment1/partc/robotic_arm_4dof.py:94-115 | with all values zero the chain lies along the x axis, ending its straight length to the right of the base with heading 0 |
| Kinematics.PoseAfterPrefix | RoboticsSem5SarthakMDM23101B0019-master/assignment1/partc/robotic_arm_4dof.py:94 | the fold looks only at the first n joints (`zip` stops at the shorter list) |
| RobotArm.DefaultLimits | RoboticsSem5SarthakMDM23101B0019-master/assignment1/partb/robot_arm.py:26-28 | without explicit limits every joint gets (-π, π) |
| RobotArm.MaxReach | RoboticsSem5SarthakMDM23101B0019-master/assignment1/partb/robot_arm.py:106 | the maximum reach, the links' total length, is never negative for non-negative links |
| RobotArm.MinReach | RoboticsSem5SarthakMDM23101B0019-master/assignment1/partb/robot_arm.py:107 | the minimum reach is never negative, and for non-negative links never exceeds the maximum reach |
| RobotArm.IsReachable | RoboticsSem5SarthakMDM23101B0019-master/assignment1/partb/robot_arm.py:94-109 | a reachable point means the annulus between the two reaches is non-empty; with non-negative links every point at exactly the maximum reach is reachable |
| RobotArm.SolveIK | RoboticsSem5SarthakMDM23101B0019-master/assignment1/partb/robot_arm.py:86-92 | `inverse_kinematics` answers `None` exactly when SLSQP reports failure, and otherwise its minimiser |
| RobotArm.ArmHeading | RoboticsSem5SarthakMDM23101B0019-master/assignment1/partb/robot_arm.py:46 | the heading of the fold after i links is the cumulative angle `cumsum(angles)[i-1]` |
| RobotArm.ArmPositionStep | RoboticsSem5SarthakMDM23101B0019-master/assignment1/partb/robot_arm.py:49-53 | position i+1 is position i plus link i along the cumulative angle, and position 0 is the base |
| RobotArm.TableIsArmPositions | RoboticsSem5SarthakMDM23101B0019-master/assignment1/partb/robot_arm.py:49-53 | any table filled by the loop of lines 51-53 equals the fold of the shared chain model |
| RobotArm.RevoluteStraightLength | RoboticsSem5SarthakMDM23101B0019-master/assignment1/partb/robot_arm.py:106 | stretched out, an all-revolute arm is as long as the sum of its links |
| RobotArm.StretchedArmTip | RoboticsSem5SarthakMDM23101B0019-master/assignment1/partb/robot_arm.py:32-56 | at zero angles the end effector sits at (max reach, 0) |
| RobotArm.ReachableIffInAnnulus | RoboticsSem5SarthakMDM23101B0019-master/assignment1/partb/robot_arm.py:94-109 | `is_reachable` holds exactly when min_reach² ≤ x²+y² ≤ max_reach² |
| RobotArm.WorkspaceReachableIsFiltered | RoboticsSem5SarthakMDM23101B0019-master/assignment1/partb/robot_arm.py:111-137 | the reachable list is an ordered subsequence of the sampled points and holds exactly the sampled points that pass `is_reachable` and have an IK solution |
| RobotArm.RoboticArm.constructor | RoboticsSem5SarthakMDM23101B0019-master/assignment1/partb/robot_arm.py:14-30 | stores the links, zero angles, and the given or default limits |
| RobotArm.RoboticArm.ForwardKinematics | RoboticsSem5SarthakMDM23101B0019-master/assignment1/partb/robot_arm.py:32-56 | returns the fold over the given or stored angles: n+1 positions starting at the base, the last one being the end effector |
| RobotArm.RoboticArm.InverseKinematics | RoboticsSem5SarthakMDM23101B0019-master/assignment1/partb/robot_arm.py:58-92 | seeds SLSQP with the given guess or the stored angles; `None` exactly on failure, else the minimiser |
| RobotArm.RoboticArm.GetWorkspace | RoboticsSem5SarthakMDM23101B0019-master/assignment1/partb/robot_arm.py:111-137 | tests the resolution² grid over [-max_reach, max_reach]² row by row and keeps the points that pass `is_reachable` and IK |
| RobotArm.RoboticArm.SetJointAngles | RoboticsSem5SarthakMDM23101B0019-master/assignment1/partb/robot_arm.py:139-141 | replaces the stored angles |
| RobotArm.RoboticArm.GetJointPositions | RoboticsSem5SarthakMDM23101B0019-master/assignment1/partb/robot_arm.py:143-146 | the forward-kinematics positions for the stored angles |
| Workspace.Clip | RoboticsSem5SarthakMDM23101B0019-master/assignment1/partb/workspace_visualization.py:128-130 | `np.clip`: one value per joint |
| Workspace.Distances | RoboticsSem5SarthakMDM23101B0019-master/assignment1/partb/workspace_visualization.py:162 | one distance per reachable point |
| Workspace.PercentBounds | RoboticsSem5SarthakMDM23101B0019-master/assignment1/partb/workspace_visualization.py:186 | a count out of a non-empty total that it does not exceed is between 0 and 100 percent |
| Workspace.Metrics | RoboticsSem5SarthakMDM23101B0019-master/assignment1/partb/workspace_visualization.py:158-169 | the counts are the reachable and tested point counts; the theoretical minimum is non-negative; the ratio lies in [0, 100] percent; with reachable points the actual minimum is at most the actual maximum, without them both reaches and the area are 0 |
| Workspace.UnreachableIsComplement | RoboticsSem5SarthakMDM23101B0019-master/assignment1/partb/workspace_visualization.py:72-77 | the unreachable list is an ordered subsequence of the sampled points and holds exactly those not in the reachable set |
| Workspace.ClipWithinLimits | RoboticsSem5SarthakMDM23101B0019-master/assignment1/partb/workspace_visualization.py:128-130 | every clipped angle lies within its joint limits |
| Workspace.ClipKeepsAdmissible | RoboticsSem5SarthakMDM23101B0019-master/assignment1/partb/workspace_visualization.py:128-130 | angles already within their limits are left unchanged |
| Workspace.AreaOnSquareGrid | RoboticsSem5SarthakMDM23101B0019-master/assignment1/partb/workspace_visualization.py:165 | on a resolution² grid the area estimate is count·(2·max_reach/resolution)² |
| Workspace.AreaEstimateOnSquare | RoboticsSem5SarthakMDM23101B0019-master/assignment1/partb/workspace_visualization.py:165 | `sqrt(len(all_points))` of a square grid is its resolution, so the cell side is 2·max_reach/resolution |
| Workspace.ActualReachWithinTheory | RoboticsSem5SarthakMDM23101B0019-master/assignment1/partb/workspace_visualization.py:158-169 | when every reachable point passes `is_reachable`, theoretical min ≤ actual min ≤ actual max ≤ theoretical max |
| Workspace.SampledReachWithinTheory | RoboticsSem5SarthakMDM23101B0019-master/assignment1/partb/workspace_visualization.py:153-169 | those bounds hold for the metrics of any sampled workspace |
| Workspace.WorkspaceVisualizer.constructor | RoboticsSem5SarthakMDM23101B0019-master/assignment1/partb/workspace_visualization.py:13-22 | keeps the arm; no workspace computed yet |
| Workspace.WorkspaceVisualizer.CalculateWorkspace | RoboticsSem5SarthakMDM23101B0019-master/assignment1/partb/workspace_visualization.py:24-33 | stores exactly what `get_workspace` returns for the resolution |
| Workspace.WorkspaceVisualizer.EnsureWorkspace | RoboticsSem5SarthakMDM23101B0019-master/assignment1/partb/workspace_visualization.py:43-44 | computes the workspace at resolution 200 only when none is stored; otherwise keeps it |
| Workspace.WorkspaceVisualizer.UnreachablePoints | RoboticsSem5SarthakMDM23101B0019-master/assignment1/partb/workspace_visualization.py:72-77 | the sampled points not in the reachable set, in test order |
| Workspace.SampleLimits | RoboticsSem5SarthakMDM23101B0019-master/assignment1/partb/workspace_visualization.py:128-130 | the limits `np.clip` applies to three angles: defined exactly for three limits or one, the single limit repeated over all three angles, and numpy's shape error for any other count |
| Workspace.WorkspaceVisualizer.SampleConfigurations | RoboticsSem5SarthakMDM23101B0019-master/assignment1/partb/workspace_visualization.py:114-140 | fails exactly when the limits do not broadcast over three angles or the arm has more than three links (forward kinematics indexes past the angles); otherwise one arm drawing per sample configuration: the positions of the sample angles clipped to the broadcast limits |
| Workspace.WorkspaceVisualizer.PlotWorkspace | RoboticsSem5SarthakMDM23101B0019-master/assignment1/partb/workspace_visualization.py:35-60 | keeps a stored workspace or samples the 200 × 200 grid and stores exactly the points that pass `is_reachable` and IK, then yields the unreachable points (when asked and points exist) and the sample configurations, failing on the same limit and link counts as SampleConfigurations |
| Workspace.WorkspaceVisualizer.AnalyzeWorkspaceMetrics | RoboticsSem5SarthakMDM23101B0019-master/assignment1/partb/workspace_visualization.py:153-187 | with no links fails (the IndexError) and changes nothing; otherwise keeps a stored workspace or samples the 200 × 200 grid and stores exactly the points that pass `is_reachable` and IK; fails (the ZeroDivisionError) exactly when no point was tested, else returns `Metrics` of the stored lists |
| PickAndPlace.Lerp | RoboticsSem5SarthakMDM23101B0019-master/assignment1/partb/pick_and_place.py:66 | `start + t·(end - start)` has one value per joint |
| PickAndPlace.Interpolation | RoboticsSem5SarthakMDM23101B0019-master/assignment1/partb/pick_and_place.py:63-68 | `steps` frames |
| PickAndPlace.Repeat | RoboticsSem5SarthakMDM23101B0019-master/assignment1/partb/pick_and_place.py:97-98 | the pause: n copies of the same configuration |
| PickAndPlace.ScaleWithin | RoboticsSem5SarthakMDM23101B0019-master/assignment1/partb/pick_and_place.py:66 | a fraction t of the way from lo to hi stays between them |
| PickAndPlace.LerpBetween | RoboticsSem5SarthakMDM23101B0019-master/assignment1/partb/pick_and_place.py:66 | each interpolated joint value lies between its start and end values |
| PickAndPlace.InterpolationEnds | RoboticsSem5SarthakMDM23101B0019-master/assignment1/partb/pick_and_place.py:63-68 | the path starts at the start configuration and ends at the end configuration |
| PickAndPlace.InterpolationBetween | RoboticsSem5SarthakMDM23101B0019-master/assignment1/partb/pick_and_place.py:63-68 | every frame of the path is joint by joint between start and end |
| PickAndPlace.Visit | RoboticsSem5SarthakMDM23101B0019-master/assignment1/partb/pick_and_place.py:87-112 | one object keeps the configuration shape and the object count |
| PickAndPlace.PlanUpTo | RoboticsSem5SarthakMDM23101B0019-master/assignment1/partb/pick_and_place.py:77-113 | the plan after n objects keeps the configuration shape and the object count |
| PickAndPlace.PlanUpToFacts | RoboticsSem5SarthakMDM23101B0019-master/assignment1/partb/pick_and_place.py:77-113 | after n objects: 50 + 60 per reached + 60 per carried frames, starting at the stored angles, ending at the current angles, and exactly the carried objects moved onto their targets |
| PickAndPlace.VisitFacts | RoboticsSem5SarthakMDM23101B0019-master/assignment1/partb/pick_and_place.py:87-112 | one object adds 0, 60 or 120 frames, keeps earlier frames, ends at the new current angles, and moves the object only when both IK calls succeed |
| PickAndPlace.PlanShape | RoboticsSem5SarthakMDM23101B0019-master/assignment1/partb/pick_and_place.py:70-117 | the whole plan has 100 + 60 per reached + 60 per carried frames, starts at the stored angles and ends at home |
| PickAndPlace.PlanMovesCarriedObjects | RoboticsSem5SarthakMDM23101B0019-master/assignment1/partb/pick_and_place.py:110-112 | after planning, object i is on target i exactly when carried, and nothing else moves |
| PickAndPlace.PlacedWithinPicked | RoboticsSem5SarthakMDM23101B0019-master/assignment1/partb/pick_and_place.py:86-104 | no more objects are carried than reached, and no more reached than have a target |
| PickAndPlace.PickAndPlaceSimulation.constructor | RoboticsSem5SarthakMDM23101B0019-master/assignment1/partb/pick_and_place.py:14-24 | keeps the arm; empty objects, targets and animation data |
| PickAndPlace.PickAndPlaceSimulation.AddObject | RoboticsSem5SarthakMDM23101B0019-master/assignment1/partb/pick_and_place.py:43-45 | appends the object position |
| PickAndPlace.PickAndPlaceSimulation.AddTarget | RoboticsSem5SarthakMDM23101B0019-master/assignment1/partb/pick_and_place.py:47-49 | appends the target position |
| PickAndPlace.PickAndPlaceSimulation.InterpolatePath | RoboticsSem5SarthakMDM23101B0019-master/assignment1/partb/pick_and_place.py:51-68 | fails exactly when steps is 1 (the division by steps - 1), otherwise the interpolated path |
| PickAndPlace.PickAndPlaceSimulation.Pause | RoboticsSem5SarthakMDM23101B0019-master/assignment1/partb/pick_and_place.py:97-98 | appends ten copies of the current configuration |
| PickAndPlace.PickAndPlaceSimulation.PlanPickAndPlace | RoboticsSem5SarthakMDM23101B0019-master/assignment1/partb/pick_and_place.py:70-117 | returns the planned frames and leaves the object list as the plan moves it |
| PickAndPlace.PickAndPlaceSimulation.RunSimulation | RoboticsSem5SarthakMDM23101B0019-master/assignment1/partb/pick_and_place.py:146-159 | stores the planned frames as animation data |
| PickAndPlace.PickAndPlaceSimulation.UpdateAnimation | RoboticsSem5SarthakMDM23101B0019-master/assignment1/partb/pick_and_place.py:119-144 | for a frame in range, sets the arm to it and returns its joint positions; otherwise changes nothing |
| Arm4Dof.Links | RoboticsSem5SarthakMDM23101B0019-master/assignment1/partc/robotic_arm_4dof.py:99-102 | one link length per joint: `base_links[i]`, or 1.0 past its end |
| Arm4Dof.PrismaticLimits | RoboticsSem5SarthakMDM23101B0019-master/assignment1/partc/robotic_arm_4dof.py:202 | the upper limits of the prismatic joints, at most one per joint |
| Arm4Dof.PrismaticLimitsNonEmpty | RoboticsSem5SarthakMDM23101B0019-master/assignment1/partc/robotic_arm_4dof.py:202 | `max()` has something to pick exactly when some joint is prismatic |
| Arm4Dof.PrismaticLimitsMembers | RoboticsSem5SarthakMDM23101B0019-master/assignment1/partc/robotic_arm_4dof.py:202 | the list given to `max()` holds exactly the upper limits of the prismatic joints |
| Arm4Dof.MaxReach | RoboticsSem5SarthakMDM23101B0019-master/assignment1/partc/robotic_arm_4dof.py:202 | the reach is the links' sum plus the largest prismatic upper limit: at least the sum plus each such limit, and equal to it for one of them |
| Arm4Dof.EvaluationsSnoc | RoboticsSem5SarthakMDM23101B0019-master/assignment1/partc/robotic_arm_4dof.py:145-148 | every objective evaluation is one forward-kinematics call, so the counts add up point by point |
| Arm4Dof.FoldStep | RoboticsSem5SarthakMDM23101B0019-master/assignment1/partc/robotic_arm_4dof.py:94-117 | one loop iteration advances the pose and appends its position |
| Arm4Dof.RevoluteStep | RoboticsSem5SarthakMDM23101B0019-master/assignment1/partc/robotic_arm_4dof.py:95-107 | a revolute joint turns the heading by its value and then moves its link length along it |
| Arm4Dof.PrismaticStep | RoboticsSem5SarthakMDM23101B0019-master/assignment1/partc/robotic_arm_4dof.py:109-115 | a prismatic joint moves its value along the current heading and does not turn |
| Arm4Dof.JointPositionsShape | RoboticsSem5SarthakMDM23101B0019-master/assignment1/partc/robotic_arm_4dof.py:90-120 | one position per active joint plus the base; the first is the base and the last the end effector |
| Arm4Dof.ExtraValuesIgnored | RoboticsSem5SarthakMDM23101B0019-master/assignment1/partc/robotic_arm_4dof.py:94 | values beyond the fourth joint are ignored |
| Arm4Dof.AnalysisProperties | RoboticsSem5SarthakMDM23101B0019-master/assignment1/partc/robotic_arm_4dof.py:202-222 | resolution² points sampled; the reachable list is an ordered subsequence holding exactly the accepted points; ratio in [0, 1] |
| Arm4Dof.AnalysisArea | RoboticsSem5SarthakMDM23101B0019-master/assignment1/partc/robotic_arm_4dof.py:222-228 | the workspace area is the ratio times the area (2·max_reach)² of the scanned square |
| Arm4Dof.RatioBounds | RoboticsSem5SarthakMDM23101B0019-master/assignment1/partc/robotic_arm_4dof.py:222 | a count out of a larger total is a ratio in [0, 1] |
| Arm4Dof.CellAreaIsRatioTimesSquare | RoboticsSem5SarthakMDM23101B0019-master/assignment1/partc/robotic_arm_4dof.py:228 | count·(2m/R)² equals (count/R²)·(2m)² |
| Arm4Dof.ProgressStepIsZero | RoboticsSem5SarthakMDM23101B0019-master/assignment1/partc/robotic_arm_4dof.py:217 | `total_points // 10` is zero exactly for resolutions up to 3 |
| Arm4Dof.ConfigMaxReach | RoboticsSem5SarthakMDM23101B0019-master/assignment1/partc/robotic_arm_4dof.py:282-294 | the sample arm has a prismatic joint and a maximum reach of 6.5 |
| Arm4Dof.ConfigZeroTip | RoboticsSem5SarthakMDM23101B0019-master/assignment1/partc/robotic_arm_4dof.py:282-294 | at zero the sample arm's end effector is at (4.5, 0) with heading 0 |
| Arm4Dof.Joint.constructor | RoboticsSem5SarthakMDM23101B0019-master/assignment1/partc/robotic_arm_4dof.py:17-29 | stores the type, both limits and the initial value |
| Arm4Dof.Joint.SetValue | RoboticsSem5SarthakMDM23101B0019-master/assignment1/partc/robotic_arm_4dof.py:31-36 | accepts exactly a value within the limits, inclusive, and only then stores it |
| Arm4Dof.RoboticArm4DOF.Kinds | RoboticsSem5SarthakMDM23101B0019-master/assignment1/partc/robotic_arm_4dof.py:94-95 | one joint type per joint |
| Arm4Dof.RoboticArm4DOF.UpperLimits | RoboticsSem5SarthakMDM23101B0019-master/assignment1/partc/robotic_arm_4dof.py:202 | one upper limit per joint |
| Arm4Dof.RoboticArm4DOF.Values | RoboticsSem5SarthakMDM23101B0019-master/assignment1/partc/robotic_arm_4dof.py:153 | one current value per joint |
| Arm4Dof.RoboticArm4DOF.constructor | RoboticsSem5SarthakMDM23101B0019-master/assignment1/partc/robotic_arm_4dof.py:42-68 | four fresh joints with the given types and limits at value 0, zero configuration, base at the origin, zero counters |
| Arm4Dof.RoboticArm4DOF.ForwardKinematics | RoboticsSem5SarthakMDM23101B0019-master/assignment1/partc/robotic_arm_4dof.py:70-126 | the fold over the given or stored values: the positions list and the end effector; one more FK call counted |
| Arm4Dof.RoboticArm4DOF.InverseKinematics | RoboticsSem5SarthakMDM23101B0019-master/assignment1/partc/robotic_arm_4dof.py:128-175 | success exactly when SLSQP succeeds with residual below 0.01; the minimiser then, else the guess; one IK call and one FK call per objective evaluation counted |
| Arm4Dof.RoboticArm4DOF.SetJointConfiguration | RoboticsSem5SarthakMDM23101B0019-master/assignment1/partc/robotic_arm_4dof.py:177-187 | each joint keeps its value exactly when within its limits; the stored configuration is replaced exactly when all were accepted |
| Arm4Dof.RoboticArm4DOF.GetWorkspaceAnalysis | RoboticsSem5SarthakMDM23101B0019-master/assignment1/partc/robotic_arm_4dof.py:189-236 | fails without a prismatic joint; fails with no IK call for resolution 0 and after one IK call for resolutions 1 to 3; otherwise the analysis of the full grid, with the counters advanced by every IK call |
| Arm4Dof.RoboticArm4DOF.ScanGrid | RoboticsSem5SarthakMDM23101B0019-master/assignment1/partc/robotic_arm_4dof.py:209-219 | scans the grid row by row, keeping the accepted points, or stops after the first point when the progress modulus is zero |
| Arm4Dof.Create4DofArmConfiguration | RoboticsSem5SarthakMDM23101B0019-master/assignment1/partc/robotic_arm_4dof.py:282-294 | the sample arm: links [2, 1.5, 0, 1], revolute-revolute-prismatic-revolute, the listed limits, all values zero |
| Conveyor.ClassifyMonotone | RoboticsSem5SarthakMDM23101B0019-master/assignment1/partc/conveyor_sorting_system.py:205-214 | a larger area never gets a smaller size class |
| Conveyor.ClassifySize | RoboticsSem5SarthakMDM23101B0019-master/assignment1/partc/conveyor_sorting_system.py:205-214 | small exactly when the area is at most 0.1, medium exactly when it is in (0.1, 0.25], large exactly when it exceeds 0.25 |
| Conveyor.SortingZones | RoboticsSem5SarthakMDM23101B0019-master/assignment1/partc/conveyor_sorting_system.py:239-249 | no two (size, colour) keys share a bin, and every bin lies in [3, 4] × [1, 2] |
| Conveyor.ClassifySpawnedSize | RoboticsSem5SarthakMDM23101B0019-master/assignment1/partc/conveyor_sorting_system.py:56-61 | every spawned object is classified as the size it was given |
| Conveyor.EveryKeyHasZone | RoboticsSem5SarthakMDM23101B0019-master/assignment1/partc/conveyor_sorting_system.py:239-249 | every (size, colour) pair has a sorting zone |
| Conveyor.ConveyorObject.constructor | RoboticsSem5SarthakMDM23101B0019-master/assignment1/partc/conveyor_sorting_system.py:17-28 | the given fields; neither picked nor sorted |
| Conveyor.Select | RoboticsSem5SarthakMDM23101B0019-master/assignment1/partc/conveyor_sorting_system.py:105-112 | the objects passing a test form a list no longer than the input |
| Conveyor.SelectSnoc | RoboticsSem5SarthakMDM23101B0019-master/assignment1/partc/conveyor_sorting_system.py:105-112 | appending an object appends it to the selection exactly when it passes |
| Conveyor.SelectSound | RoboticsSem5SarthakMDM23101B0019-master/assignment1/partc/conveyor_sorting_system.py:105-112 | the selection is an ordered subsequence holding exactly the objects that pass |
| Conveyor.SelectAsMask | RoboticsSem5SarthakMDM23101B0019-master/assignment1/partc/conveyor_sorting_system.py:79-85 | selection by a test equals masking by the precomputed pass flags |
| Conveyor.StaysOnBelt | RoboticsSem5SarthakMDM23101B0019-master/assignment1/partc/conveyor_sorting_system.py:80-84 | per object, whether it stays: picked, or still at or before the end after moving |
| Conveyor.SurvivorsAreSelection | RoboticsSem5SarthakMDM23101B0019-master/assignment1/partc/conveyor_sorting_system.py:79-85 | removing during the loop over a copy leaves exactly the objects that stay, in order and without repeats |
| Conveyor.DetectedInPickupZone | RoboticsSem5SarthakMDM23101B0019-master/assignment1/partc/conveyor_sorting_system.py:179-183 | every object in the detection zone is also in the pickup zone |
| Conveyor.ConveyorBelt.constructor | RoboticsSem5SarthakMDM23101B0019-master/assignment1/partc/conveyor_sorting_system.py:34-67 | an empty belt with the given length, width and speed, centred at (0, -3) |
| Conveyor.ConveyorBelt.SpawnObject | RoboticsSem5SarthakMDM23101B0019-master/assignment1/partc/conveyor_sorting_system.py:87-103 | appends one fresh unpicked object at the start of the belt with the size's dimensions and the belt speed |
| Conveyor.ConveyorBelt.MoveObjects | RoboticsSem5SarthakMDM23101B0019-master/assignment1/partc/conveyor_sorting_system.py:78-85 | every unpicked object moves speed·dt; the list becomes exactly the objects that stay on the belt, in order |
| Conveyor.ConveyorBelt.Update | RoboticsSem5SarthakMDM23101B0019-master/assignment1/partc/conveyor_sorting_system.py:69-85 | optionally spawns, then moves; the list becomes the staying objects of the old list plus the spawned one |
| Conveyor.ConveyorBelt.GetObjectsInPickupZone | RoboticsSem5SarthakMDM23101B0019-master/assignment1/partc/conveyor_sorting_system.py:105-112 | exactly the unpicked, unsorted objects within the zone, in list order |
| Conveyor.DetectObjects | RoboticsSem5SarthakMDM23101B0019-master/assignment1/partc/conveyor_sorting_system.py:164-203 | one detection per object in the detection zone, in list order, each recording the object, its position, classified size and actual size and colour |
| Conveyor.DetectionsSound | RoboticsSem5SarthakMDM23101B0019-master/assignment1/partc/conveyor_sorting_system.py:192-200 | a detection refers to an object of the list that is in the zone, at its position, with its actual size and colour |
| Conveyor.FirstMax | RoboticsSem5SarthakMDM23101B0019-master/assignment1/partc/conveyor_sorting_system.py:279 | `max(key=confidence)`: a highest confidence, the first among equals |
| Conveyor.Confidences | RoboticsSem5SarthakMDM23101B0019-master/assignment1/partc/conveyor_sorting_system.py:279 | one confidence per detection |
| Conveyor.SortingSystem.constructor | RoboticsSem5SarthakMDM23101B0019-master/assignment1/partc/conveyor_sorting_system.py:231-264 | the sample arm, an empty 8 x 1.5 belt at speed 0.5, detection zone (0, 2, -3), zero counters, scanning |
| Conveyor.SortingSystem.StartPickSequence | RoboticsSem5SarthakMDM23101B0019-master/assignment1/partc/conveyor_sorting_system.py:288-305 | counts a detection and records the object; solves IK once for the point 0.3 above it, adding one IK call and the solver's evaluations to the arm's counters; on accepted IK, moves to pick and counts a pick attempt, else scans on |
| Conveyor.SortingSystem.ExecutePick | RoboticsSem5SarthakMDM23101B0019-master/assignment1/partc/conveyor_sorting_system.py:323-346 | for an unpicked object: marks it picked, counts a pick and one IK call, and heads for its sorting zone when IK accepts, else scans; otherwise nothing changes, the arm counters included; only the held object's `picked` flag can change |
| Conveyor.SortingSystem.ExecuteSort | RoboticsSem5SarthakMDM23101B0019-master/assignment1/partc/conveyor_sorting_system.py:363-380 | for a held object: marks it sorted, counts a sort and a correct sort, releases it and scans; otherwise nothing; only the held object's `sorted` flag can change |
| Conveyor.SortingSystem.ExecutePickMovement | RoboticsSem5SarthakMDM23101B0019-master/assignment1/partc/conveyor_sorting_system.py:307-321 | steps toward the pick target, picking on arrival; keeps the counter invariant |
| Conveyor.SortingSystem.ExecuteSortMovement | RoboticsSem5SarthakMDM23101B0019-master/assignment1/partc/conveyor_sorting_system.py:348-361 | steps toward the sort target, sorting on arrival; keeps the counter invariant |
| Conveyor.SortingSystem.Sense | RoboticsSem5SarthakMDM23101B0019-master/assignment1/partc/conveyor_sorting_system.py:268-274 | updates the belt (the old objects plus the spawned one, reduced to those that stay) and returns one detection per detectable object, in order |
| Conveyor.SortingSystem.Scan | RoboticsSem5SarthakMDM23101B0019-master/assignment1/partc/conveyor_sorting_system.py:277-280 | with detections: counts a detection, holds the first highest-confidence object and starts the pick toward the point 0.3 above it; IK acceptance decides the state, target and pick count, and the arm's IK and FK counters grow by one call and the solver's evaluations; without detections the state, holding, target and all counters are unchanged; finished picks, sorts, joint values and the held object's flags are never touched |
| Conveyor.SortingSystem.Update | RoboticsSem5SarthakMDM23101B0019-master/assignment1/partc/conveyor_sorting_system.py:266-286 | updates the belt and detects; in the scanning state the belt becomes exactly the staying objects, `detected` is one record per detectable object, and the pick outcome, with the arm's counters, is that of Scan, while finished picks and sorts, the joint values and the previously held object's flags stay as they were; in the other states no detection or pick is counted; keeps the counter invariant |
| Conveyor.SortingSystem.GetPerformanceMetrics | RoboticsSem5SarthakMDM23101B0019-master/assignment1/partc/conveyor_sorting_system.py:382-399 | objects on the belt and sorted; pick success rate in [0, 1] and 0 without attempts; sort accuracy 1 once anything is sorted, else 0 |

## Left out

- cos, sin and sqrt: library numerics, supplied as a `MathLib` parameter. Only cos 0 = 1, sin 0 = 0 and sqrt being a non-negative square root are assumed, and only where `Lawful` is required.
- SLSQP (`scipy.optimize.minimize`): its numerics are a `Solver` parameter. The model keeps what the code does with its result (`success`, `x`, `fun` and the number of objective evaluations).
- Floating point: all arithmetic is on exact reals, so rounding, and the tolerance in tests such as `obj.x > end`, are not modelled.
- Plotting and animation (matplotlib figures, `visualize`, `visualize_arm`, `FuncAnimation`): not modelled. `PlotWorkspace` and `UpdateAnimation` return the data they would draw.
- Console output (progress and status prints): not modelled.
- Randomness is supplied as parameters: the spawned size, colour and y offset (a `Spawn` value), and the detection confidence (a function of the detection index).
- `classify_color`: its 5% random misclassification is left out, and a detection reports the actual colour. `ObjectDetector`'s size thresholds and colour ranges are never read by the code, so they are not modelled either.
- Clocks: the spawn timer in the belt update is an optional `Spawn` argument; `calculation_times`, `start_time` and the throughput metric are left out.
- `detection_rate` in `get_performance_metrics`: computed but never returned, so left out.
- Conveyor.SortingSystem.ExecutePickMovement: the norm-based step toward the target is supplied as a `Motion` value (whether the arm arrived, and the stepped configuration). The contract states the counter invariant and counter bounds, not the joint values reached.
- Conveyor.SortingSystem.ExecuteSortMovement: same as `ExecutePickMovement`.
- Conveyor.SortingSystem.Update: does not restate the objects' new positions, which ConveyorBelt.Update states. In the moving states it does not state which objects stayed on the belt, because the pick step may set the held object's `picked` flag after the move; it states only the counter invariant there.
- Workspace.WorkspaceVisualizer.EnsureWorkspace: requires at least one link; with none, sampling raises IndexError in `is_reachable`. That error path is modelled in AnalyzeWorkspaceMetrics only.
- Workspace.WorkspaceVisualizer.PlotWorkspace: requires at least one link, for the same reason as EnsureWorkspace.
- Workspace.WorkspaceVisualizer.CalculateWorkspace: requires at least one link when the resolution is positive, for the same reason.
- SLSQP's reported objective `fun` is not tied to the end-effector distance, so an accepted IK solution is not proved to lie within 1 cm of its target.
- Size and colour strings are enums, so the "no sorting zone" branch of `execute_pick` cannot be reached. The 'picking' and 'sorting' arm states are never entered by the code and appear only in the enum.
- `ConveyorObject.speed`: stored but never read; the belt moves objects at the belt's own speed.
- RobotArm.MinReach: requires at least one link; with none, `link_lengths[-1]` raises IndexError (robot_arm.py:107). That error is not modelled here.
- RobotArm.IsReachable: requires at least one link, for the same IndexError as MinReach.
- RobotArm.RoboticArm.GetWorkspace: requires at least one link when the resolution is positive, because every grid point goes through `is_reachable` and its IndexError is not modelled.
- Arm4Dof.RoboticArm4DOF.constructor: requires at least four joint types and four limits. Shorter lists raise IndexError in the joint loop (robotic_arm_4dof.py:57), which is not modelled.
- Conveyor.SortingSystem.Sense: does not restate the objects' new positions, which ConveyorBelt.Update states. Its frame allows only the objects' positions to change, so their flags are kept.
- numpy broadcasting: length preconditions (`|angles| >= number of links`, `KeepsShape` of the solver) stand in for numpy's shape errors.
- `Arm4Dof.RoboticArm4DOF.GetWorkspaceAnalysis`: `print` calls are not modelled, and the failing cases return `Err` instead of raising.
- `demo_*` functions and the `__main__` blocks: scripts that wire the classes together; not modelled.
