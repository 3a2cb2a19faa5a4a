// The conveyor sorting system of part C (partc/conveyor_sorting_system.py): a belt that
// carries objects to the right and drops them past its end, a detector that reports the
// objects in a zone, and a sorting controller that drives the 4-DOF arm through
// scanning -> moving to pick -> moving to sort -> scanning while it counts what it does.
// Randomness (spawned object properties, detection confidence, colour mistakes), the clock
// and the arm's numeric stepping enter as parameters.

module Conveyor {
  import opened Wrappers
  import opened Geometry
  import opened Optimization
  import opened Seqs
  import opened Arm4Dof

  datatype Size = Small | Medium | Large
  datatype Color = Red | Green | Blue

  /** The (width, height) a spawned object of each size gets. */
  function SizeDimensions(size: Size): (real, real) {
    match size
    case Small => (0.2, 0.2)
    case Medium => (0.4, 0.4)
    case Large => (0.6, 0.6)
  }

  /** `classify_size` on the area: up to 0.1 is small, up to 0.25 medium, anything else large. */
  function SizeOfArea(area: real): Size {
    if area <= 0.1 then Small
    else if area <= 0.25 then Medium
    else Large
  }

  /** `classify_size(width, height)`. */
  function ClassifySize(width: real, height: real): (r: Size)
    ensures r == Small <==> width * height <= 0.1
    ensures r == Medium <==> 0.1 < width * height <= 0.25
    ensures r == Large <==> 0.25 < width * height
  {
    SizeOfArea(width * height)
  }

  /** Small < Medium < Large. */
  function Rank(size: Size): nat {
    match size
    case Small => 0
    case Medium => 1
    case Large => 2
  }

  /** A larger area never gets a smaller size class. */
  lemma ClassifyMonotone(a: real, b: real)
    requires a <= b
    ensures Rank(SizeOfArea(a)) <= Rank(SizeOfArea(b))
  {
  }

  /** The dimensions a size is spawned with are classified back to that size. */
  lemma ClassifySpawnedSize(size: Size)
    ensures ClassifySize(SizeDimensions(size).0, SizeDimensions(size).1) == size
  {
    var (w, h) := SizeDimensions(size);
    match size {
      case Small => assert w * h == 0.04;
      case Medium => assert w * h == 0.16;
      case Large => assert w * h == 0.36;
    }
  }

  /**
   * The bin for each (size, colour): columns by colour at x = 3, 3.5, 4; rows by size at
   * y = 1, 1.5, 2.  No two keys share a bin, and every bin lies in [3, 4] x [1, 2].
   */
  function SortingZones(): (zones: map<(Size, Color), Point>)
    ensures forall k1, k2 :: k1 in zones && k2 in zones && zones[k1] == zones[k2] ==> k1 == k2
    ensures forall k :: k in zones ==> 3.0 <= zones[k].x <= 4.0 && 1.0 <= zones[k].y <= 2.0
  {
    map[(Small, Red) := Point(3.0, 1.0), (Small, Green) := Point(3.5, 1.0), (Small, Blue) := Point(4.0, 1.0),
        (Medium, Red) := Point(3.0, 1.5), (Medium, Green) := Point(3.5, 1.5), (Medium, Blue) := Point(4.0, 1.5),
        (Large, Red) := Point(3.0, 2.0), (Large, Green) := Point(3.5, 2.0), (Large, Blue) := Point(4.0, 2.0)]
  }

  /** Every (size, colour) pair has a bin, so the "no sorting zone" branch never runs. */
  lemma EveryKeyHasZone(size: Size, color: Color)
    ensures (size, color) in SortingZones()
  {
    match size {
      case Small => match color { case Red => case Green => case Blue => }
      case Medium => match color { case Red => case Green => case Blue => }
      case Large => match color { case Red => case Green => case Blue => }
    }
  }

  /** An object on the belt; only its position, `picked` and `sorted` ever change. */
  class ConveyorObject {
    var x: real
    const y: real
    const size: Size
    const color: Color
    const width: real
    const height: real
    const speed: real
    var picked: bool
    var sorted: bool

    constructor (x: real, y: real, size: Size, color: Color, width: real, height: real, speed: real)
      ensures this.x == x && this.y == y && this.size == size && this.color == color
      ensures this.width == width && this.height == height && this.speed == speed
      ensures !picked && !sorted
    {
      this.x, this.y, this.size, this.color := x, y, size, color;
      this.width, this.height, this.speed := width, height, speed;
      picked, sorted := false, false;
    }
  }

  /** The tests the belt, the pickup zone and the detector apply to each object. */
  datatype Test =
    | Survives(endX: real)
    | Pickup(centerX: real, width: real)
    | Detectable(centerX: real, width: real, yPos: real)

  function Abs(v: real): real {
    if v < 0.0 then -v else v
  }

  ghost predicate Passes(o: ConveyorObject, t: Test)
    reads o
  {
    match t
    case Survives(endX) => o.picked || o.x <= endX
    case Pickup(c, w) => !o.picked && !o.sorted && c - w / 2.0 <= o.x <= c + w / 2.0
    case Detectable(c, w, yPos) =>
      !o.picked && !o.sorted && c - w / 2.0 <= o.x <= c + w / 2.0 && Abs(o.y - yPos) <= 1.0
  }

  /** The objects of s that pass t, in list order. */
  ghost function Select(s: seq<ConveyorObject>, t: Test): (r: seq<ConveyorObject>)
    reads s
    ensures |r| <= |s|
  {
    if s == [] then []
    else Select(s[..|s| - 1], t) + (if Passes(s[|s| - 1], t) then [s[|s| - 1]] else [])
  }

  lemma SelectSnoc(s: seq<ConveyorObject>, x: ConveyorObject, t: Test)
    ensures Select(s + [x], t) == Select(s, t) + (if Passes(x, t) then [x] else [])
  {
    assert (s + [x])[..|s|] == s;
  }

  /** A selection is an order-preserving subsequence holding exactly the objects that pass. */
  lemma {:induction false} SelectSound(s: seq<ConveyorObject>, t: Test)
    ensures IsSubsequence(Select(s, t), s)
    ensures forall o :: o in Select(s, t) <==> o in s && Passes(o, t)
  {
    if s != [] {
      var s0, x := s[..|s| - 1], s[|s| - 1];
      assert s == s0 + [x];
      SelectSound(s0, t);
      SelectSnoc(s0, x, t);
      if Passes(x, t) {
        var r := Select(s, t);
        assert r[..|r| - 1] == Select(s0, t);
      } else {
        assert Select(s, t) == Select(s0, t);
        SubsequenceExtend(Select(s0, t), s0, x);
      }
    }
  }

  /** A selection is the mask of the objects' test outcomes, taken in one state. */
  lemma {:induction false} SelectAsMask(s: seq<ConveyorObject>, t: Test, keep: seq<bool>)
    requires |keep| == |s|
    requires forall k :: 0 <= k < |s| ==> keep[k] == Passes(s[k], t)
    ensures Select(s, t) == Mask(s, keep)
  {
    if s != [] {
      SelectAsMask(s[..|s| - 1], t, keep[..|s| - 1]);
    }
  }

  /** For each object, whether it is still on the belt after a move by `step` (picked ones never move). */
  ghost function StaysOnBelt(s: seq<ConveyorObject>, step: real, endX: real): (r: seq<bool>)
    reads s
    ensures |r| == |s|
    ensures forall k :: 0 <= k < |s| ==> r[k] == (s[k].picked || s[k].x + step <= endX)
  {
    if s == [] then [] else StaysOnBelt(s[..|s| - 1], step, endX) + [s[|s| - 1].picked || s[|s| - 1].x + step <= endX]
  }

  /**
   * The list left by a removal pass over a list without repetitions, with the objects'
   * final positions deciding what stays, is the selection of the survivors.
   */
  lemma SurvivorsAreSelection(s: seq<ConveyorObject>, stays: seq<bool>, endX: real)
    requires |stays| == |s| && Distinct(s)
    requires forall k :: 0 <= k < |s| ==> stays[k] == Passes(s[k], Survives(endX))
    ensures Survivors(s, stays, |s|) == Select(s, Survives(endX))
    ensures Distinct(Survivors(s, stays, |s|))
  {
    SurvivorsShape(s, stays, |s|);
    assert s[..|s|] == s && stays[..|s|] == stays;
    SelectAsMask(s, Survives(endX), stays);
    SelectSound(s, Survives(endX));
    SubsequenceDistinct(Select(s, Survives(endX)), s);
  }

  /** Every detectable object is also in the pickup zone of the same centre and width. */
  lemma DetectedInPickupZone(s: seq<ConveyorObject>, c: real, w: real, yPos: real)
    ensures forall o :: o in Select(s, Detectable(c, w, yPos)) ==> o in Select(s, Pickup(c, w))
  {
    SelectSound(s, Detectable(c, w, yPos));
    SelectSound(s, Pickup(c, w));
  }

  /** The random choices of `spawn_object`: size, colour and the y offset across the belt. */
  datatype Spawn = Spawn(size: Size, color: Color, offset: real)

  class ConveyorBelt {
    const length: real
    const width: real
    const speed: real
    const beltX: real
    const beltY: real
    var objects: seq<ConveyorObject>

    /** Each object is on the belt at most once. */
    ghost predicate Valid()
      reads this
    {
      Distinct(objects)
    }

    /** An empty belt centred at (0, -3). */
    constructor (length: real, width: real, speed: real)
      ensures Valid() && objects == []
      ensures this.length == length && this.width == width && this.speed == speed
      ensures beltX == 0.0 && beltY == -3.0
    {
      this.length, this.width, this.speed := length, width, speed;
      beltX, beltY := 0.0, -3.0;
      objects := [];
    }

    /** Where objects appear: half a unit before the belt's left end. */
    function StartX(): real {
      beltX - length / 2.0 - 0.5
    }

    /** Past this x an object has left the belt. */
    function EndX(): real {
      beltX + length / 2.0 + 1.0
    }

    /** `spawn_object`, with its random choices given: a new object at the start of the belt. */
    method SpawnObject(spawn: Spawn) returns (o: ConveyorObject)
      requires Valid() && -width / 4.0 <= spawn.offset <= width / 4.0
      modifies this`objects
      ensures Valid() && fresh(o) && objects == old(objects) + [o]
      ensures o.x == StartX() && o.y == beltY + spawn.offset && o.speed == speed
      ensures o.size == spawn.size && o.color == spawn.color && (o.width, o.height) == SizeDimensions(spawn.size)
      ensures !o.picked && !o.sorted
    {
      var (w, h) := SizeDimensions(spawn.size);
      o := new ConveyorObject(StartX(), beltY + spawn.offset, spawn.size, spawn.color, w, h, speed);
      objects := objects + [o];
    }

    /**
     * The moving half of `update`: every unpicked object advances by speed * dt, and one
     * that is then past the end of the belt is removed; picked objects stay where they are.
     */
    method MoveObjects(dt: real)
      requires Valid()
      modifies this`objects, objects`x
      ensures Valid()
      ensures forall o :: o in old(objects) ==>
        && o.picked == old(o.picked) && o.sorted == old(o.sorted)
        && o.x == if o.picked then old(o.x) else old(o.x) + speed * dt
      ensures objects == Select(old(objects), Survives(EndX()))
    {
      var copy := objects;
      // Whether each object is still on the belt once the pass is over, fixed from the start.
      ghost var stays := StaysOnBelt(copy, speed * dt, EndX());
      for i := 0 to |copy|
        invariant objects == Survivors(copy, stays, i)
        invariant forall k :: 0 <= k < i ==>
          copy[k].x == if copy[k].picked then old(copy[k].x) else old(copy[k].x) + speed * dt
        invariant forall k :: i <= k < |copy| ==> copy[k].x == old(copy[k].x)
      {
        var obj := copy[i];
        assert forall k :: 0 <= k < |copy| && k != i ==> copy[k] != obj;
        assert obj in objects by {
          SurvivorsNext(copy, stays, i);
        }
        if !obj.picked {
          obj.x := obj.x + speed * dt;
          if obj.x > EndX() {
            objects := RemoveFirst(objects, obj);
          }
        }
      }
      SurvivorsAreSelection(copy, stays, EndX());
    }

    /**
     * `update(dt)`: a new object first when the spawn timer fires (its random choices are
     * `spawn`), then the move.  `before` is the list the move starts from.
     */
    method Update(dt: real, spawn: Option<Spawn>) returns (ghost before: seq<ConveyorObject>)
      requires Valid()
      requires spawn.Some? ==> -width / 4.0 <= spawn.value.offset <= width / 4.0
      modifies this`objects, objects`x
      ensures Valid()
      ensures |before| == |old(objects)| + (if spawn.Some? then 1 else 0)
      ensures before[..|old(objects)|] == old(objects)
      ensures spawn.Some? ==> fresh(before[|before| - 1])
      ensures forall o :: o in old(objects) ==>
        && o.picked == old(o.picked) && o.sorted == old(o.sorted)
        && o.x == if o.picked then old(o.x) else old(o.x) + speed * dt
      ensures spawn.Some? ==> var o := before[|before| - 1];
        !o.picked && !o.sorted && o.x == StartX() + speed * dt
      ensures objects == Select(before, Survives(EndX()))
    {
      if spawn.Some? {
        var _ := SpawnObject(spawn.value);
      }
      before := objects;
      MoveObjects(dt);
    }

    /** `get_objects_in_pickup_zone`: the objects waiting in [pickupX - w/2, pickupX + w/2], in order. */
    method GetObjectsInPickupZone(pickupX: real, pickupWidth: real) returns (zone: seq<ConveyorObject>)
      ensures zone == Select(objects, Pickup(pickupX, pickupWidth))
    {
      zone := [];
      for i := 0 to |objects|
        invariant zone == Select(objects[..i], Pickup(pickupX, pickupWidth))
      {
        var obj := objects[i];
        assert objects[..i + 1] == objects[..i] + [obj];
        SelectSnoc(objects[..i], obj, Pickup(pickupX, pickupWidth));
        if !obj.picked && !obj.sorted && pickupX - pickupWidth / 2.0 <= obj.x <= pickupX + pickupWidth / 2.0 {
          zone := zone + [obj];
        }
      }
      assert objects[..|objects|] == objects;
    }
  }

  /** What `detect_objects` reports about one object. */
  datatype Detection = Detection(obj: ConveyorObject, position: Point, size: Size, color: Color,
                                 confidence: real, actualSize: Size, actualColor: Color)

  /**
   * The parts of a sorting system a scanning step does not change: the finished pick and
   * sort counters, the arm's joint values, and the held object with its picked and sorted
   * flags.
   */
  datatype Snapshot = Snapshot(picks: nat, sorts: nat, correct: nat, joints: seq<real>, values: seq<real>,
                               holding: Option<ConveyorObject>, flags: (bool, bool))

  /** The record for one detected object; colour classification is taken to be correct. */
  function DetectionOf(o: ConveyorObject, confidence: real): (d: Detection)
    reads o
  {
    Detection(o, Point(o.x, o.y), ClassifySize(o.width, o.height), o.color, confidence, o.size, o.color)
  }

  /**
   * `detect_objects(objects, (centerX, width, yPos))`: one record per waiting object in the
   * zone, in list order; the k-th record's random confidence is `confidence(k)`.
   */
  method DetectObjects(objects: seq<ConveyorObject>, zone: (real, real, real), confidence: nat -> real)
    returns (detected: seq<Detection>)
    ensures var hits := Select(objects, Detectable(zone.0, zone.1, zone.2));
      && |detected| == |hits|
      && forall k :: 0 <= k < |hits| ==> detected[k] == DetectionOf(hits[k], confidence(k))
  {
    var (centerX, width, yPos) := zone;
    detected := [];
    ghost var hits: seq<ConveyorObject> := [];
    for i := 0 to |objects|
      invariant hits == Select(objects[..i], Detectable(centerX, width, yPos))
      invariant |detected| == |hits|
      invariant forall k :: 0 <= k < |hits| ==> detected[k] == DetectionOf(hits[k], confidence(k))
    {
      var obj := objects[i];
      assert objects[..i + 1] == objects[..i] + [obj];
      SelectSnoc(objects[..i], obj, Detectable(centerX, width, yPos));
      if !obj.picked && !obj.sorted && centerX - width / 2.0 <= obj.x <= centerX + width / 2.0
         && Abs(obj.y - yPos) <= 1.0
      {
        assert Passes(obj, Detectable(centerX, width, yPos));
        detected := detected + [DetectionOf(obj, confidence(|detected|))];
        hits := hits + [obj];
      } else {
        assert !Passes(obj, Detectable(centerX, width, yPos));
      }
    }
    assert objects[..|objects|] == objects;
  }

  /** The detected objects are distinct members of the list that pass the zone test. */
  lemma DetectionsSound(objects: seq<ConveyorObject>, zone: (real, real, real), d: Detection, k: nat)
    requires var hits := Select(objects, Detectable(zone.0, zone.1, zone.2));
      k < |hits| && d == DetectionOf(hits[k], d.confidence)
    ensures d.obj in objects && Passes(d.obj, Detectable(zone.0, zone.1, zone.2))
    ensures d.position == Point(d.obj.x, d.obj.y) && d.actualSize == d.obj.size && d.actualColor == d.obj.color
  {
    SelectSound(objects, Detectable(zone.0, zone.1, zone.2));
  }

  /**
   * `max(detections, key=confidence)`: the first index holding the largest confidence
   * (Python's max keeps the earliest of equal maxima).
   */
  function FirstMax(conf: seq<real>): (k: nat)
    requires |conf| > 0
    ensures k < |conf|
    ensures forall j :: 0 <= j < |conf| ==> conf[j] <= conf[k]
    ensures forall j :: 0 <= j < k ==> conf[j] < conf[k]
  {
    if |conf| == 1 then 0
    else
      var k := FirstMax(conf[..|conf| - 1]);
      if conf[|conf| - 1] > conf[k] then |conf| - 1 else k
  }

  function Confidences(ds: seq<Detection>): (c: seq<real>)
    ensures |c| == |ds|
  {
    seq(|ds|, k requires 0 <= k < |ds| => ds[k].confidence)
  }

  /** A positive count over itself is 1: the sort accuracy once anything is sorted. */
  lemma RatioOfEqual(n: nat)
    requires n > 0
    ensures (n as real) / (n as real) == 1.0
  {
  }

  /** The controller's states; the source names all five but only enters three. */
  datatype ArmState = Scanning | MovingToPick | Picking | MovingToSort | Sorting

  /** What `get_performance_metrics` reports (the wall-clock throughput is not modelled). */
  datatype PerformanceMetrics = PerformanceMetrics(
    objectsProcessed: nat,
    objectsSorted: nat,
    detectionAttempts: nat,
    successfulPicks: nat,
    pickSuccessRate: real,
    sortAccuracy: real)

  /** The `arrived` test and the stepped configuration of one movement step, computed by the numerics. */
  datatype Motion = Motion(arrived: bool, step: seq<real>)

  class SortingSystem {
    const arm: RoboticArm4DOF
    const conveyor: ConveyorBelt
    const detectionZone: (real, real, real)
    var objectsSorted: nat
    var correctSorts: nat
    var detectionAttempts: nat
    var pickAttempts: nat
    var successfulPicks: nat
    var currentTarget: Option<seq<real>>
    var pickingObject: Option<ConveyorObject>
    var armState: ArmState

    /**
     * The counters never run ahead of each other: a pick attempt needs a detection, a
     * successful pick a pick attempt (one still under way in MovingToPick), a sort a
     * successful pick (one still under way in MovingToSort); every sort is counted correct.
     */
    ghost predicate Valid()
      reads this, arm, conveyor
    {
      && successfulPicks + (if armState == MovingToPick then 1 else 0) <= pickAttempts
      && pickAttempts <= detectionAttempts
      && objectsSorted + (if armState == MovingToSort then 1 else 0) <= successfulPicks
      && correctSorts == objectsSorted
      && arm.Valid() && conveyor.Valid()
    }

    /** The object being handled, as a frame. */
    function Held(): set<ConveyorObject>
      reads this
    {
      if pickingObject.Some? then {pickingObject.value} else {}
    }

    /** The sample 4-DOF arm, an 8 x 1.5 belt at speed 0.5, the detection zone, zero counters. */
    constructor ()
      ensures Valid() && fresh(arm) && fresh(arm.joints) && fresh(conveyor)
      ensures arm.baseLinks == ConfigLinks && arm.Kinds() == ConfigKinds
      ensures conveyor.length == 8.0 && conveyor.width == 1.5 && conveyor.speed == 0.5 && conveyor.objects == []
      ensures detectionZone == (0.0, 2.0, -3.0)
      ensures objectsSorted == 0 && correctSorts == 0 && detectionAttempts == 0
      ensures pickAttempts == 0 && successfulPicks == 0
      ensures currentTarget.None? && pickingObject.None? && armState == Scanning
    {
      var sampleArm := Create4DofArmConfiguration();
      var belt := new ConveyorBelt(8.0, 1.5, 0.5);
      arm, conveyor := sampleArm, belt;
      detectionZone := (0.0, 2.0, belt.beltY);
      objectsSorted, correctSorts, detectionAttempts, pickAttempts, successfulPicks := 0, 0, 0, 0, 0;
      currentTarget, pickingObject, armState := None, None, Scanning;
    }

    /**
     * `start_pick_sequence`: counts a detection, takes the object, and solves IK for the
     * point 0.3 above it; on success it heads there and counts a pick attempt.
     */
    method StartPickSequence(solver: Solver, detection: Detection)
      requires Valid()
      modifies this`detectionAttempts, this`pickingObject, this`currentTarget, this`armState, this`pickAttempts
      modifies arm`fkCalculations, arm`ikCalculations
      ensures Valid()
      ensures var r := solver(Point(detection.position.x, detection.position.y + 0.3), old(arm.jointValues));
        && detectionAttempts == old(detectionAttempts) + 1
        && pickingObject == Some(detection.obj)
        && arm.ikCalculations == old(arm.ikCalculations) + 1
        && arm.fkCalculations == old(arm.fkCalculations) + r.evaluations
        && (Accepted(r) ==> armState == MovingToPick && currentTarget == Some(r.x)
                            && pickAttempts == old(pickAttempts) + 1)
        && (!Accepted(r) ==> armState == Scanning && currentTarget == old(currentTarget)
                             && pickAttempts == old(pickAttempts))
      ensures successfulPicks == old(successfulPicks) && objectsSorted == old(objectsSorted)
      ensures correctSorts == old(correctSorts)
    {
      detectionAttempts := detectionAttempts + 1;
      pickingObject := Some(detection.obj);
      var pickPos := Point(detection.position.x, detection.position.y + 0.3);
      var success, solution := arm.InverseKinematics(solver, pickPos, None);
      if success {
        currentTarget := Some(solution);
        armState := MovingToPick;
        pickAttempts := pickAttempts + 1;
      } else {
        armState := Scanning;
      }
    }

    /**
     * `execute_pick`: only with an object in hand that is not yet picked, marks it picked,
     * counts the pick, and solves IK for its bin; it heads there on success and goes back
     * to scanning otherwise.
     */
    method ExecutePick(solver: Solver)
      modifies this, arm`fkCalculations, arm`ikCalculations, Held()`picked
      ensures pickingObject == old(pickingObject)
      ensures old(pickingObject.None? || pickingObject.value.picked) ==>
        && armState == old(armState) && successfulPicks == old(successfulPicks)
        && currentTarget == old(currentTarget)
        && arm.fkCalculations == old(arm.fkCalculations) && arm.ikCalculations == old(arm.ikCalculations)
      ensures old(pickingObject.Some? && !pickingObject.value.picked) ==>
        var o := pickingObject.value;
        && (o.size, o.color) in SortingZones()
        && var r := solver(SortingZones()[(o.size, o.color)], old(arm.jointValues));
        && o.picked && successfulPicks == old(successfulPicks) + 1
        && arm.ikCalculations == old(arm.ikCalculations) + 1
        && arm.fkCalculations == old(arm.fkCalculations) + r.evaluations
        && (Accepted(r) ==> armState == MovingToSort && currentTarget == Some(r.x))
        && (!Accepted(r) ==> armState == Scanning && currentTarget == old(currentTarget))
      ensures detectionAttempts == old(detectionAttempts) && pickAttempts == old(pickAttempts)
      ensures objectsSorted == old(objectsSorted) && correctSorts == old(correctSorts)
    {
      if pickingObject.Some? && !pickingObject.value.picked {
        var o := pickingObject.value;
        o.picked := true;
        successfulPicks := successfulPicks + 1;
        var key := (o.size, o.color);
        if key in SortingZones() {
          var sortPos := SortingZones()[key];
          var success, solution := arm.InverseKinematics(solver, sortPos, None);
          if success {
            currentTarget := Some(solution);
            armState := MovingToSort;
          } else {
            armState := Scanning;
          }
        } else {
          armState := Scanning;
        }
        EveryKeyHasZone(o.size, o.color);
      }
    }

    /**
     * `execute_sort`: with an object in hand, marks it sorted, counts the sort (and, since
     * the check compares the object with itself, a correct one), and releases everything.
     */
    method ExecuteSort()
      modifies this, Held()`sorted
      ensures old(pickingObject.Some?) ==>
        && old(pickingObject.value).sorted
        && objectsSorted == old(objectsSorted) + 1 && correctSorts == old(correctSorts) + 1
        && pickingObject.None? && currentTarget.None? && armState == Scanning
      ensures old(pickingObject.None?) ==>
        && objectsSorted == old(objectsSorted) && correctSorts == old(correctSorts)
        && pickingObject.None? && currentTarget == old(currentTarget) && armState == old(armState)
      ensures detectionAttempts == old(detectionAttempts) && pickAttempts == old(pickAttempts)
      ensures successfulPicks == old(successfulPicks)
    {
      if pickingObject.Some? {
        var o := pickingObject.value;
        o.sorted := true;
        objectsSorted := objectsSorted + 1;
        if o.size == o.size && o.color == o.color {
          correctSorts := correctSorts + 1;
        }
        pickingObject := None;
        currentTarget := None;
        armState := Scanning;
      }
    }

    /**
     * `execute_pick_movement`: with a target, either snaps onto it and picks (when the
     * numerics say it has arrived) or steps towards it.
     */
    method ExecutePickMovement(solver: Solver, motion: Motion)
      requires Valid() && armState == MovingToPick
      modifies this, arm`fkCalculations, arm`ikCalculations, arm`jointValues, arm.joints, Held()`picked
      ensures Valid()
      ensures detectionAttempts == old(detectionAttempts) && pickAttempts == old(pickAttempts)
      ensures successfulPicks <= old(successfulPicks) + 1
    {
      if currentTarget.Some? {
        if motion.arrived {
          var _ := arm.SetJointConfiguration(currentTarget.value);
          ExecutePick(solver);
        } else {
          var _ := arm.SetJointConfiguration(motion.step);
        }
      }
    }

    /** `execute_sort_movement`: with a target, snaps onto it and sorts, or steps towards it. */
    method ExecuteSortMovement(motion: Motion)
      requires Valid() && armState == MovingToSort
      modifies this, arm`jointValues, arm.joints, Held()`sorted
      ensures Valid()
      ensures detectionAttempts == old(detectionAttempts) && pickAttempts == old(pickAttempts)
      ensures successfulPicks == old(successfulPicks) && objectsSorted <= old(objectsSorted) + 1
    {
      if currentTarget.Some? {
        if motion.arrived {
          var _ := arm.SetJointConfiguration(currentTarget.value);
          ExecuteSort();
        } else {
          var _ := arm.SetJointConfiguration(motion.step);
        }
      }
    }

    /** The state a scanning step of `update` leaves alone. */
    ghost function Snap(): (snap: Snapshot)
      reads this, arm, arm.joints, Held()
    {
      Snapshot(successfulPicks, objectsSorted, correctSorts, arm.jointValues, arm.Values(), pickingObject,
               if pickingObject.Some? then (pickingObject.value.picked, pickingObject.value.sorted) else (false, false))
    }

    /**
     * The counters of finished picks and sorts, the arm's joint values and the flags of
     * the object `snap` held are still those of `snap`.
     */
    ghost predicate Kept(snap: Snapshot)
      reads this, arm, arm.joints, if snap.holding.Some? then {snap.holding.value} else {}
    {
      && successfulPicks == snap.picks && objectsSorted == snap.sorts && correctSorts == snap.correct
      && arm.jointValues == snap.joints && arm.Values() == snap.values
      && (snap.holding.Some? ==> (snap.holding.value.picked, snap.holding.value.sorted) == snap.flags)
    }

    /**
     * What sensing leaves behind: the belt holds exactly the objects of `before` that stay
     * on it, and `found` has one detection per object in the detection zone, in belt
     * order, the k-th with confidence `confidence(k)`.
     */
    ghost predicate Sensed(before: seq<ConveyorObject>, found: seq<Detection>, confidence: nat -> real)
      reads conveyor, conveyor.objects, before
      reads Select(conveyor.objects, Detectable(detectionZone.0, detectionZone.1, detectionZone.2))
    {
      && conveyor.objects == Select(before, Survives(conveyor.EndX()))
      && var hits := Select(conveyor.objects, Detectable(detectionZone.0, detectionZone.1, detectionZone.2));
      && |found| == |hits|
      && forall k :: 0 <= k < |hits| ==> found[k] == DetectionOf(hits[k], confidence(k))
    }

    /**
     * The first half of `update(dt)`: the belt update, then the detector over the belt's
     * objects.  `before` is the list the belt moved: the old list plus any spawned object.
     */
    method Sense(dt: real, spawn: Option<Spawn>, confidence: nat -> real, ghost snap: Snapshot)
      returns (ghost before: seq<ConveyorObject>, found: seq<Detection>)
      requires Valid() && Kept(snap)
      requires spawn.Some? ==> -conveyor.width / 4.0 <= spawn.value.offset <= conveyor.width / 4.0
      modifies conveyor`objects, conveyor.objects`x
      ensures Valid()
      ensures |before| == |old(conveyor.objects)| + (if spawn.Some? then 1 else 0)
      ensures before[..|old(conveyor.objects)|] == old(conveyor.objects)
      ensures spawn.Some? ==> fresh(before[|before| - 1])
      ensures Sensed(before, found, confidence)
      ensures Kept(snap)
    {
      before := conveyor.Update(dt, spawn);
      found := DetectObjects(conveyor.objects, detectionZone, confidence);
    }

    /**
     * What the scanning branch of `update` leaves behind, given the detections and the
     * values before it.  With a detection: one more detection attempt, the first most
     * confident detection's object held, and one IK call (with its evaluations counted
     * by the arm) seeded with the old joint values toward the point 0.3 above it; if IK
     * accepts, the arm heads there and a pick attempt is counted, otherwise it keeps
     * scanning.  Without one: nothing changes.
     */
    ghost predicate ScanOutcome(found: seq<Detection>, solver: Solver, joints0: seq<real>, fk0: nat, ik0: nat,
                                detections0: nat, picks0: nat, holding0: Option<ConveyorObject>,
                                target0: Option<seq<real>>)
      reads this, arm
    {
      if |found| > 0 then
        var d := found[FirstMax(Confidences(found))];
        var r := solver(Point(d.position.x, d.position.y + 0.3), joints0);
        && detectionAttempts == detections0 + 1
        && pickingObject == Some(d.obj)
        && arm.ikCalculations == ik0 + 1 && arm.fkCalculations == fk0 + r.evaluations
        && (Accepted(r) ==> armState == MovingToPick && currentTarget == Some(r.x) && pickAttempts == picks0 + 1)
        && (!Accepted(r) ==> armState == Scanning && currentTarget == target0 && pickAttempts == picks0)
      else
        && armState == Scanning && detectionAttempts == detections0 && pickAttempts == picks0
        && pickingObject == holding0 && currentTarget == target0
        && arm.ikCalculations == ik0 && arm.fkCalculations == fk0
    }

    /**
     * The scanning branch of `update`: with any detection, starts on the first most
     * confident one.  It touches neither the belt nor its objects, so what sensing
     * established still holds afterwards.
     */
    method Scan(solver: Solver, found: seq<Detection>, ghost before: seq<ConveyorObject>, ghost confidence: nat -> real,
                ghost snap: Snapshot)
      requires Valid() && armState == Scanning
      requires Sensed(before, found, confidence) && Kept(snap)
      modifies this`detectionAttempts, this`pickingObject, this`currentTarget, this`armState, this`pickAttempts
      modifies arm`fkCalculations, arm`ikCalculations
      ensures Valid()
      ensures ScanOutcome(found, solver, old(arm.jointValues), old(arm.fkCalculations), old(arm.ikCalculations),
                          old(detectionAttempts), old(pickAttempts), old(pickingObject), old(currentTarget))
      ensures Sensed(before, found, confidence) && Kept(snap)
    {
      if |found| > 0 {
        var best := FirstMax(Confidences(found));
        StartPickSequence(solver, found[best]);
      }
    }

    /**
     * `update(dt)`: moves the belt, runs the detector over its objects, and then acts on
     * the state: while scanning, starts on the most confident detection; while moving,
     * takes one movement step.  `before` is the list the belt moved: the old list plus
     * any spawned object.
     */
    method Update(solver: Solver, dt: real, spawn: Option<Spawn>, confidence: nat -> real, motion: Motion)
      returns (ghost before: seq<ConveyorObject>, ghost detected: seq<Detection>)
      requires Valid()
      requires spawn.Some? ==> -conveyor.width / 4.0 <= spawn.value.offset <= conveyor.width / 4.0
      modifies this, conveyor`objects, conveyor.objects`x, arm`fkCalculations, arm`ikCalculations
      modifies arm`jointValues, arm.joints, Held()`picked, Held()`sorted
      ensures Valid()
      ensures |before| == |old(conveyor.objects)| + (if spawn.Some? then 1 else 0)
      ensures before[..|old(conveyor.objects)|] == old(conveyor.objects)
      ensures spawn.Some? ==> fresh(before[|before| - 1])
      // scanning: the belt holds the survivors of the move, the detections are those of
      // the moved belt, and the most confident one is started on
      ensures old(armState) == Scanning ==> Sensed(before, detected, confidence)
      ensures old(armState) == Scanning ==>
        ScanOutcome(detected, solver, old(arm.jointValues), old(arm.fkCalculations), old(arm.ikCalculations),
                    old(detectionAttempts), old(pickAttempts), old(pickingObject), old(currentTarget))
      // scanning: no pick, sort or arm movement happens, and the object held before keeps
      // its flags
      ensures old(armState) == Scanning ==>
        && successfulPicks == old(successfulPicks) && objectsSorted == old(objectsSorted)
        && correctSorts == old(correctSorts)
        && arm.jointValues == old(arm.jointValues) && arm.Values() == old(arm.Values())
      ensures old(armState) == Scanning && old(pickingObject).Some? ==>
        && old(pickingObject).value.picked == old(pickingObject.value.picked)
        && old(pickingObject).value.sorted == old(pickingObject.value.sorted)
      ensures old(armState) != Scanning ==>
        detectionAttempts == old(detectionAttempts) && pickAttempts == old(pickAttempts)
    {
      ghost var snap := Snap();
      var found;
      before, found := Sense(dt, spawn, confidence, snap);
      detected := found;
      if armState == Scanning {
        Scan(solver, found, before, confidence, snap);
      } else if armState == MovingToPick {
        ExecutePickMovement(solver, motion);
      } else if armState == MovingToSort {
        ExecuteSortMovement(motion);
      }
    }

    /**
     * `get_performance_metrics`: with no detection yet every rate is 0; otherwise the pick
     * success rate is successes per attempt and the sort accuracy correct sorts per sort,
     * each 0 when nothing was attempted.
     */
    function GetPerformanceMetrics(): (r: PerformanceMetrics)
      reads this, arm, conveyor
      requires Valid()
      ensures r.objectsProcessed == |conveyor.objects| && r.objectsSorted == objectsSorted
      ensures 0.0 <= r.pickSuccessRate <= 1.0
      ensures r.pickSuccessRate == 0.0 <== pickAttempts == 0
      ensures r.sortAccuracy == if objectsSorted > 0 then 1.0 else 0.0
    {
      if detectionAttempts > 0 then
        var pickRate := if pickAttempts > 0 then
          RatioBounds(successfulPicks, pickAttempts);
          (successfulPicks as real) / (pickAttempts as real)
        else 0.0;
        var accuracy := if objectsSorted > 0 then
          RatioOfEqual(objectsSorted);
          (correctSorts as real) / (objectsSorted as real)
        else 0.0;
        PerformanceMetrics(|conveyor.objects|, objectsSorted, detectionAttempts, successfulPicks, pickRate, accuracy)
      else
        PerformanceMetrics(|conveyor.objects|, objectsSorted, detectionAttempts, successfulPicks, 0.0, 0.0)
    }
  }
}
