/** Values shared by both generations of the workout tracker: GPS samples,
    the geodesic distance between them, splits, and the fixed thresholds
    that classify samples. */
module Workout {

  datatype Option<T> = None | Some(value: T)

  /** One CoreLocation fix: position, horizontal accuracy radius (metres),
      reported speed (m/s) and timestamp (seconds). */
  datatype Location = Location(lat: real, lon: real, accuracy: real, speed: real, timestamp: real)

  /** Geodesic distance `a.distance(from: b)`. The geodesy itself is not
      modelled: any function that never returns a negative distance will do. */
  type Metric = f: (Location, Location) -> real | forall a, b :: f(a, b) >= 0.0
    witness (a: Location, b: Location) => 0.0

  /** The activity chosen when a workout starts (`HKWorkoutActivityType`). */
  datatype ActivityType = Walking | Running | Cycling | WheelchairWalkPace | WheelchairRunPace | SkatingSports | OtherActivity

  /** Opaque handles handed out by the recording sink: a workout builder or a
      route builder, and a finished workout. */
  datatype Builder = Builder(id: nat)
  datatype WorkoutHandle = WorkoutHandle(id: nat)

  /** An error reported by the sink in a completion callback. */
  datatype SinkError = SinkError(code: int)

  /** The `(success, error)` pair a sink completion receives. */
  datatype SinkOutcome = SinkOutcome(success: bool, error: Option<SinkError>)

  /** The distance sample added to the workout when it is finalised. */
  datatype DistanceSample = DistanceSample(distance: real, start: real, end: real)

  /** Calls the tracker makes on its collaborators, in the order it makes
      them: the location source and the recording sink. */
  datatype Effect =
    | StartUpdatingLocation
    | StopUpdatingLocation
    | BeginCollection(builder: Builder, start: real)
    | InsertRouteData(route: Builder, points: seq<Location>)
    | AddMetadata(builder: Builder, peakSpeed: real, averageSpeed: real)
    | AddSamples(builder: Builder, sample: DistanceSample)
    | EndCollection(builder: Builder, end: real)
    | FinishWorkout(builder: Builder)
    | FinishRoute(route: Builder, workout: WorkoutHandle)

  /** An asynchronous sink call whose completion has not yet run, with what
      its completion closure captured. */
  datatype Pending =
    | AwaitBegin
    | AwaitMetadata(builder: Builder, sample: DistanceSample)
    | AwaitSamples(builder: Builder, end: real)
    | AwaitEnd(builder: Builder)
    | AwaitFinish(builder: Builder)
    | AwaitRoute(route: Builder)

  /** A split: the cumulative distance covered at a moment in time. */
  datatype WorkoutSplit = WorkoutSplit(time: real, distance: real)

  datatype DistanceUnit = Miles | Kilometers

  /** A sample further than this from the reference location is a GPS jump. */
  const JumpLimit: real := 10.0
  /** Fixes less accurate than this never contribute distance. */
  const AccuracyLimit: real := 10.0
  /** A hop faster than this (m/s) invalidates the peak-speed window. */
  const SpeedLimit: real := 10.0

  /** Swift's `Int(x)` on a finite Double: truncation toward zero. */
  function Truncate(x: real): (n: int)
    ensures x >= 0.0 ==> n as real <= x < n as real + 1.0
    ensures x < 0.0 ==> n as real - 1.0 < x <= n as real
  {
    if x >= 0.0 then x.Floor else -((-x).Floor)
  }

  /** The lock rule `case 0...10` applied to `Int(horizontalAccuracy)`. */
  predicate IsLockAccuracy(accuracy: real)
  {
    0 <= Truncate(accuracy) <= 10
  }

  /** Because of the truncation the lock window is the open interval (-1, 11),
      wider on both sides than the accuracy gate `accuracy <= 10`. */
  lemma LockAccuracyWindow(accuracy: real)
    ensures IsLockAccuracy(accuracy) <==> -1.0 < accuracy < 11.0
  {
    var n := Truncate(accuracy);
    if accuracy >= 0.0 {
      assert n as real <= accuracy < n as real + 1.0;
    } else {
      assert n as real - 1.0 < accuracy <= n as real;
    }
  }

  /** IEEE comparison `distance / duration > 10.0`, written without the
      division: a zero duration gives +inf when the distance is positive
      (too fast) and NaN otherwise (not too fast); a negative duration gives
      a non-positive speed. */
  predicate TooFast(distance: real, duration: real)
  {
    (duration > 0.0 && distance > SpeedLimit * duration) || (duration == 0.0 && distance > 0.0)
  }

  lemma TooFastIsSpeedAboveLimit(distance: real, duration: real)
    requires distance >= 0.0 && duration > 0.0
    ensures TooFast(distance, duration) <==> distance / duration > SpeedLimit
  {
    var s := distance / duration;
    assert s * duration == distance;
    if s > SpeedLimit {
      assert s * duration > SpeedLimit * duration;
    } else {
      assert s * duration <= SpeedLimit * duration;
    }
  }

  /** The distance of every split is at most `distance`, and the splits are
      in non-decreasing order of distance. */
  ghost predicate SplitsOrdered(splits: seq<WorkoutSplit>, distance: real)
  {
    && (forall i :: 0 <= i < |splits| ==> splits[i].distance <= distance)
    && (forall i, j :: 0 <= i < j < |splits| ==> splits[i].distance <= splits[j].distance)
  }

  /** The samples of `locs` whose accuracy passes the gate, in order
      (`filter { $0.horizontalAccuracy <= 10.0 }`). */
  function AccurateOnly(locs: seq<Location>): (r: seq<Location>)
    ensures |r| <= |locs|
    ensures forall i :: 0 <= i < |r| ==> r[i].accuracy <= AccuracyLimit && r[i] in locs
    ensures forall x :: x in locs && x.accuracy <= AccuracyLimit ==> x in r
  {
    if locs == [] then []
    else if locs[0].accuracy <= AccuracyLimit then [locs[0]] + AccurateOnly(locs[1..])
    else AccurateOnly(locs[1..])
  }

  /** Sum of the distances of consecutive hops along `path`, starting from
      `from` when there is one. */
  function PathLength(dist: Metric, from: Option<Location>, path: seq<Location>): (r: real)
    ensures r >= 0.0
    decreases |path|
  {
    if path == [] then 0.0
    else (if from.Some? then dist(path[0], from.value) else 0.0) + PathLength(dist, Some(path[0]), path[1..])
  }

  /** `s` without its element at index `i`. */
  function RemoveAt<T>(s: seq<T>, i: nat): (r: seq<T>)
    requires i < |s|
    ensures |r| == |s| - 1
    ensures forall x :: x in r ==> x in s
  {
    s[..i] + s[i + 1..]
  }

  /** Removing at an index takes exactly that one occurrence away. */
  lemma RemoveAtOccurrence<T>(s: seq<T>, i: nat)
    requires i < |s|
    ensures multiset(RemoveAt(s, i)) + multiset{s[i]} == multiset(s)
  {
    assert s == s[..i] + [s[i]] + s[i + 1..];
  }
}
