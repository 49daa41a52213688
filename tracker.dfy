/** The first generation of the workout tracker (`WorkoutTracker`). Like the
    state machine, each public method is one atomic step on the tracker's
    serial queue and each sink completion is a later step of its own; the
    rules differ in the details: the state changes inside the batch loop,
    a split is appended as soon as its threshold is crossed, there is no
    accuracy gate once the workout has started, the speed is taken per hop,
    and starting twice throws. Calls on collaborators, delegate
    notifications and the stop caller's completion are recorded in one
    trace of events. */
module Tracker {
  import opened Workout

  datatype WorkoutState =
    | Before
    | WaitingForLocationStream
    | WaitingForGPS
    | Started
    | Paused  // declared by `WorkoutState`, never entered
    | Stopped
    | Failed
  {
    predicate IsWaiting() { this == WaitingForLocationStream || this == WaitingForGPS }
  }

  datatype TrackerError =
    | UnexplainedBeginingFailure  // declared by `WorkoutTrackerError`, never raised
    | WorkoutAlreadyStarted
    | NoWorkoutStarted
    | ErrorEndingCollection
    | MissingWorkout

  /** The error handed to the stop caller's completion: one of the
      tracker's own, or one passed on from the sink. */
  datatype Failure = TrackerFailure(reason: TrackerError) | SinkFailure(error: SinkError)

  /** What the tracker does that can be observed from outside, in order. */
  datatype Event =
    | Call(effect: Effect)                                       // on the location manager or a builder
    | StateUpdated(state: WorkoutState)                          // delegate notification
    | SplitsUpdated(splits: seq<WorkoutSplit>, finalUpdate: bool)  // delegate notification
    | Completed(error: Option<Failure>)                          // the stop caller's completion

  /** Everything the tracker holds that changes, as one value. */
  datatype Tracker = Tracker(
    state: WorkoutState,
    splits: seq<WorkoutSplit>,
    peakSpeed: real,
    currentSpeed: real,
    workoutBuilder: Option<Builder>,
    routeBuilder: Option<Builder>,
    lastLocation: Option<Location>,
    distance: real,
    collectionStart: Option<real>,  // the workout builder's start date
    events: seq<Event>,
    pending: seq<Pending>)

  function Initial(): Tracker
  {
    Tracker(Before, [], 0.0, 0.0, None, None, None, 0.0, None, [], [])
  }

  /** What every reachable tracker satisfies. */
  ghost predicate Inv(m: Tracker)
  {
    && 0.0 <= m.distance
    && m.currentSpeed <= m.peakSpeed
    && SplitsOrdered(m.splits, m.distance)
    && (m.state.IsWaiting() ==> m.distance == 0.0 && m.splits == [] && m.collectionStart.None?)
    && (m.state == Before ==> m.workoutBuilder.None? && m.routeBuilder.None? && m.pending == [] && m.collectionStart.None?)
    && (m.workoutBuilder.Some? ==> m.state.IsWaiting() || m.state == Started)
    && (m.workoutBuilder.Some? && m.state == Started ==> m.collectionStart.Some?)
    && (forall p :: p in m.pending && p.AwaitRoute? ==> m.workoutBuilder.None?)
  }

  lemma InitialInv()
    ensures Inv(Initial()) && Initial().state == Before
  {
  }

  /** The error a sink completion passes on to the stop caller. */
  function Reported(error: Option<SinkError>): (r: Option<Failure>)
    ensures r.None? <==> error.None?
    ensures error.Some? ==> r == Some(SinkFailure(error.value))
  {
    if error.Some? then Some(SinkFailure(error.value)) else None
  }

  // ---------------------------------------------------------------- start

  /** `startWorkout(healthStore:)`: only a tracker that is still `Before` can
      start; any other throws `WorkoutAlreadyStarted` and changes nothing.
      The last location, distance and splits are reset, the builders are
      taken, the delegate hears `WaitingForLocationStream` and location
      updates start. The speeds are not reset. */
  function StartTracking(m: Tracker, workout: Builder, route: Builder): Tracker
  {
    if m.state != Before then m
    else
      m.(lastLocation := None, distance := 0.0, splits := [], workoutBuilder := Some(workout),
         state := WaitingForLocationStream, routeBuilder := Some(route),
         events := m.events + [StateUpdated(WaitingForLocationStream), Call(StartUpdatingLocation)])
  }

  /** The error `startWorkout` throws. */
  function StartError(m: Tracker): (r: Option<TrackerError>)
  {
    if m.state != Before then Some(WorkoutAlreadyStarted) else None
  }

  lemma StartTrackingOutcome(m: Tracker, workout: Builder, route: Builder)
    requires Inv(m)
    ensures var r := StartTracking(m, workout, route);
      && Inv(r)
      && (StartError(m) == Some(WorkoutAlreadyStarted) <==> m.state != Before)
      && (m.state != Before ==> r == m)
      && (m.state == Before ==>
            && StartError(m).None?
            && r.state == WaitingForLocationStream && r.lastLocation.None?
            && r.distance == 0.0 && r.splits == []
            && r.workoutBuilder == Some(workout) && r.routeBuilder == Some(route)
            && r.peakSpeed == m.peakSpeed && r.pending == []
            && r.events == m.events + [StateUpdated(WaitingForLocationStream), Call(StartUpdatingLocation)])
  {
  }

  // ------------------------------------------------ GPS-acquisition loop

  /** What the waiting-state loop carries: the tracker, whose state changes
      as the loop runs, and the samples admitted so far. */
  datatype Scan = Scan(t: Tracker, remaining: seq<Location>)

  /** A sample that locks: the state becomes `Started` at once, collection
      begins at `now`, and a zero-distance split is appended and
      published. */
  function Lock(t: Tracker, now: real): (r: Tracker)
    requires t.workoutBuilder.Some?
  {
    var splits := t.splits + [WorkoutSplit(now, 0.0)];
    t.(state := Started, collectionStart := Some(now), splits := splits,
       events := t.events + LockEvents(t.workoutBuilder.value, now, splits),
       pending := t.pending + [AwaitBegin])
  }

  /** What a lock reports, in order: the delegate hears `Started`,
      collection begins on `builder`, and the delegate hears the splits. */
  function LockEvents(builder: Builder, now: real, splits: seq<WorkoutSplit>): seq<Event>
  {
    [StateUpdated(Started), Call(BeginCollection(builder, now)), SplitsUpdated(splits, false)]
  }

  /** One sample of a batch that arrived while waiting. The jump rule comes
      first; then the state the loop has reached so far decides: while still
      waiting the lock rule applies, once `Started` the sample is admitted. */
  function ScanStep(dist: Metric, now: real, s: Scan, loc: Location): Scan
    requires s.t.workoutBuilder.Some?
  {
    var t := s.t;
    if t.lastLocation.None? then Scan(t.(lastLocation := Some(loc)), s.remaining)
    else if dist(loc, t.lastLocation.value) > JumpLimit then Scan(t.(lastLocation := Some(loc)), s.remaining)
    else if t.state.IsWaiting() then
      if IsLockAccuracy(loc.accuracy) then Scan(Lock(t, now), s.remaining + [loc])
      else if t.state == WaitingForLocationStream then
        Scan(t.(state := WaitingForGPS, events := t.events + [StateUpdated(WaitingForGPS)]), s.remaining)
      else s
    else Scan(t, s.remaining + [loc])
  }

  function ScanAll(dist: Metric, now: real, s: Scan, locs: seq<Location>): (r: Scan)
    requires s.t.workoutBuilder.Some?
    ensures r.t.workoutBuilder == s.t.workoutBuilder
    decreases |locs|
  {
    if locs == [] then s else ScanAll(dist, now, ScanStep(dist, now, s, locs[0]), locs[1..])
  }

  /** The waiting-state loop of `didUpdateLocations`, on a copy of the
      tracker. */
  method ScanLoop(dist: Metric, now: real, m: Tracker, locations: seq<Location>) returns (s: Scan)
    requires m.workoutBuilder.Some?
    ensures s == ScanAll(dist, now, Scan(m, []), locations)
  {
    var t := m;
    var remaining: seq<Location> := [];
    var i := 0;
    while i < |locations|
      invariant 0 <= i <= |locations|
      invariant t.workoutBuilder == m.workoutBuilder
      invariant ScanAll(dist, now, Scan(m, []), locations) == ScanAll(dist, now, Scan(t, remaining), locations[i..])
    {
      var location := locations[i];
      assert locations[i..][1..] == locations[i + 1..];
      if t.lastLocation.None? {
        t := t.(lastLocation := Some(location));
      } else if dist(location, t.lastLocation.value) > JumpLimit {
        t := t.(lastLocation := Some(location));
      } else if t.state.IsWaiting() {
        if IsLockAccuracy(location.accuracy) {
          var splits := t.splits + [WorkoutSplit(now, 0.0)];
          t := t.(state := Started, collectionStart := Some(now), splits := splits,
                  events := t.events + [StateUpdated(Started), Call(BeginCollection(t.workoutBuilder.value, now)),
                                        SplitsUpdated(splits, false)],
                  pending := t.pending + [AwaitBegin]);
          remaining := remaining + [location];
        } else if t.state == WaitingForLocationStream {
          t := t.(state := WaitingForGPS, events := t.events + [StateUpdated(WaitingForGPS)]);
        }
      } else {
        remaining := remaining + [location];
      }
      i := i + 1;
    }
    s := Scan(t, remaining);
  }

  lemma {:induction false} ScanAllAppend(dist: Metric, now: real, s: Scan, a: seq<Location>, b: seq<Location>)
    requires s.t.workoutBuilder.Some?
    ensures ScanAll(dist, now, s, a + b) == ScanAll(dist, now, ScanAll(dist, now, s, a), b)
    decreases |a|
  {
    if a == [] {
      assert a + b == b;
    } else {
      assert (a + b)[1..] == a[1..] + b;
      ScanAllAppend(dist, now, ScanStep(dist, now, s, a[0]), a[1..], b);
    }
  }

  /** Scanning one more sample is one more step after the scan so far. */
  lemma ScanAllSnoc(dist: Metric, now: real, s: Scan, a: seq<Location>, x: Location)
    requires s.t.workoutBuilder.Some?
    ensures ScanAll(dist, now, s, a + [x]) == ScanStep(dist, now, ScanAll(dist, now, s, a), x)
  {
    ScanAllAppend(dist, now, s, a, [x]);
    assert [x][1..] == [];
  }

  /** At any index of a batch, a sample seen with no reference location, or
      more than 10 m from it, becomes the reference and is dropped; nothing
      else changes. */
  lemma JumpBecomesReference(dist: Metric, now: real, s: Scan, locs: seq<Location>, i: nat)
    requires s.t.workoutBuilder.Some? && i < |locs|
    requires var p := ScanAll(dist, now, s, locs[..i]);
      p.t.lastLocation.None? || dist(locs[i], p.t.lastLocation.value) > JumpLimit
    ensures var p := ScanAll(dist, now, s, locs[..i]);
      ScanAll(dist, now, s, locs[..i + 1]) == Scan(p.t.(lastLocation := Some(locs[i])), p.remaining)
  {
    assert locs[..i + 1] == locs[..i] + [locs[i]];
    ScanAllSnoc(dist, now, s, locs[..i], locs[i]);
  }

  /** At any index of a batch, a sample within 10 m of the reference, which
      does not move. While waiting it locks exactly when `Int(accuracy)` is
      in 0...10: the tracker is `Started` at once, collection begins, one
      zero-distance split is appended and published, and the sample is
      admitted. Otherwise it is dropped and `WaitingForLocationStream` moves
      on to `WaitingForGPS`, which the delegate hears. Once `Started` the
      sample is admitted whatever its accuracy. */
  lemma CloseSampleClassified(dist: Metric, now: real, s: Scan, locs: seq<Location>, i: nat)
    requires s.t.workoutBuilder.Some? && i < |locs|
    requires var p := ScanAll(dist, now, s, locs[..i]);
      p.t.lastLocation.Some? && dist(locs[i], p.t.lastLocation.value) <= JumpLimit
    ensures var p := ScanAll(dist, now, s, locs[..i]);
      var q := ScanAll(dist, now, s, locs[..i + 1]);
      var loc := locs[i];
      && q.t.lastLocation == p.t.lastLocation
      && (p.t.state.IsWaiting() ==> (q.t.state == Started <==> 0 <= Truncate(loc.accuracy) <= 10))
      && (p.t.state.IsWaiting() && IsLockAccuracy(loc.accuracy) ==>
            && q.remaining == p.remaining + [loc]
            && q.t.splits == p.t.splits + [WorkoutSplit(now, 0.0)]
            && q.t.events == p.t.events + LockEvents(s.t.workoutBuilder.value, now, q.t.splits)
            && q.t.pending == p.t.pending + [AwaitBegin] && q.t.collectionStart == Some(now))
      && (p.t.state.IsWaiting() && !IsLockAccuracy(loc.accuracy) ==>
            && q.remaining == p.remaining && q.t.splits == p.t.splits && q.t.state == WaitingForGPS
            && q.t.events == p.t.events + (if p.t.state == WaitingForLocationStream then [StateUpdated(WaitingForGPS)] else []))
      && (!p.t.state.IsWaiting() ==> q == Scan(p.t, p.remaining + [loc]))
  {
    assert locs[..i + 1] == locs[..i] + [locs[i]];
    ScanAllSnoc(dist, now, s, locs[..i], locs[i]);
  }

  /** What the waiting loop does over a whole batch. From `Started` it only
      moves the reference and admits samples. While waiting, at most one
      sample locks: it makes the batch's only `beginCollection` call and
      its only split, at distance 0, and the state ends `Started` exactly
      when that happened. Distance, speeds and builders never change, and
      only samples of the batch are admitted. */
  ghost predicate ScanOutcome(s: Scan, r: Scan, locs: seq<Location>, now: real)
  {
    && r.t.distance == s.t.distance
    && r.t.peakSpeed == s.t.peakSpeed && r.t.currentSpeed == s.t.currentSpeed
    && r.t.routeBuilder == s.t.routeBuilder
    && s.remaining <= r.remaining
    && (forall x :: x in r.remaining[|s.remaining|..] ==> x in locs)
    && (s.t.state == Started ==>
          r.t.state == Started && r.t.splits == s.t.splits && r.t.events == s.t.events
          && r.t.pending == s.t.pending && r.t.collectionStart == s.t.collectionStart)
    && (s.t.state.IsWaiting() && s.t.workoutBuilder.Some? ==>
          var locked := LockEvents(s.t.workoutBuilder.value, now, s.t.splits + [WorkoutSplit(now, 0.0)]);
          || (&& r.t.state.IsWaiting() && r.t.splits == s.t.splits && r.t.pending == s.t.pending
              && r.t.collectionStart == s.t.collectionStart
              && ((r.t.state == s.t.state && r.t.events == s.t.events)
                  || (s.t.state == WaitingForLocationStream && r.t.state == WaitingForGPS
                      && r.t.events == s.t.events + [StateUpdated(WaitingForGPS)])))
          || (&& r.t.state == Started && r.t.splits == s.t.splits + [WorkoutSplit(now, 0.0)]
              && r.t.pending == s.t.pending + [AwaitBegin] && r.t.collectionStart == Some(now)
              && (r.t.events == s.t.events + locked
                  || (s.t.state == WaitingForLocationStream
                      && r.t.events == s.t.events + [StateUpdated(WaitingForGPS)] + locked))))
  }

  lemma {:induction false} ScanAllOutcome(dist: Metric, now: real, s: Scan, locs: seq<Location>)
    requires s.t.workoutBuilder.Some? && (s.t.state.IsWaiting() || s.t.state == Started)
    ensures ScanOutcome(s, ScanAll(dist, now, s, locs), locs, now)
    decreases |locs|
  {
    if locs != [] {
      var s1 := ScanStep(dist, now, s, locs[0]);
      ScanAllOutcome(dist, now, s1, locs[1..]);
      var r := ScanAll(dist, now, s1, locs[1..]);
      assert r.remaining[|s.remaining|..] == s1.remaining[|s.remaining|..] + r.remaining[|s1.remaining|..];
      forall x | x in r.remaining[|s.remaining|..] ensures x in locs {
        if x in s1.remaining[|s.remaining|..] {
          assert s1.remaining[|s.remaining|..] == [] || s1.remaining[|s.remaining|..] == [locs[0]];
        } else {
          assert x in locs[1..];
        }
      }
    }
  }

  /** Unlike the state machine, the tracker changes its state inside the
      loop: once sample `i` of a batch has locked, the tracker stays
      `Started` for the rest of the batch, and every later sample `j`
      within 10 m of the reference is admitted however poor its accuracy. */
  lemma LockIsImmediate(dist: Metric, now: real, s: Scan, locs: seq<Location>, i: nat, j: nat)
    requires s.t.workoutBuilder.Some? && i < j < |locs|
    requires var p := ScanAll(dist, now, s, locs[..i]);
      && p.t.state.IsWaiting() && IsLockAccuracy(locs[i].accuracy)
      && p.t.lastLocation.Some? && dist(locs[i], p.t.lastLocation.value) <= JumpLimit
    requires var q := ScanAll(dist, now, s, locs[..j]);
      q.t.lastLocation.Some? && dist(locs[j], q.t.lastLocation.value) <= JumpLimit
    ensures ScanAll(dist, now, s, locs[..j]).t.state == Started
    ensures ScanAll(dist, now, s, locs[..j + 1]).remaining == ScanAll(dist, now, s, locs[..j]).remaining + [locs[j]]
  {
    CloseSampleClassified(dist, now, s, locs, i);
    var q1 := ScanAll(dist, now, s, locs[..i + 1]);
    assert locs[..j] == locs[..i + 1] + locs[i + 1..j];
    ScanAllAppend(dist, now, s, locs[..i + 1], locs[i + 1..j]);
    ScanAllOutcome(dist, now, q1, locs[i + 1..j]);
    CloseSampleClassified(dist, now, s, locs, j);
  }

  // ------------------------------------------------------- tracking loop

  /** The speed of the hop `last -> loc`, as the current speed, raising the
      peak when it is higher. Over a zero duration `didUpdateLocations` divides by
      zero; the speeds are then left as they were. */
  function HopSpeeds(t: Tracker, d: real, duration: real): (r: Tracker)
  {
    if duration == 0.0 then t
    else
      var speed := d / duration;
      t.(currentSpeed := speed, peakSpeed := if speed > t.peakSpeed then speed else t.peakSpeed)
  }

  /** One admitted sample once `Started`: the hop from the last location is
      added to the distance; a split is appended and published as soon as
      the distance passes `splitDistance` times the splits so far; the hop
      speed is taken; the sample becomes the last location. */
  function TrackStep(dist: Metric, splitDistance: real, now: real, t: Tracker, loc: Location): Tracker
  {
    if t.lastLocation.None? then t.(lastLocation := Some(loc))
    else
      var last := t.lastLocation.value;
      var d := dist(loc, last);
      var total := t.distance + d;
      var t1 :=
        if total > splitDistance * |t.splits| as real then
          var splits := t.splits + [WorkoutSplit(now, total)];
          t.(distance := total, splits := splits, events := t.events + [SplitsUpdated(splits, false)])
        else t.(distance := total);
      HopSpeeds(t1, d, loc.timestamp - last.timestamp).(lastLocation := Some(loc))
  }

  function TrackAll(dist: Metric, splitDistance: real, now: real, t: Tracker, locs: seq<Location>): Tracker
    decreases |locs|
  {
    if locs == [] then t else TrackAll(dist, splitDistance, now, TrackStep(dist, splitDistance, now, t, locs[0]), locs[1..])
  }

  /** One admitted sample of the tracking loop. */
  method TrackSample(dist: Metric, splitDistance: real, now: real, t: Tracker, location: Location) returns (r: Tracker)
    ensures r == TrackStep(dist, splitDistance, now, t, location)
  {
    r := t;
    if t.lastLocation.Some? {
      var last := t.lastLocation.value;
      var newDistance := dist(location, last);
      var distance := t.distance + newDistance;
      var splits, events := t.splits, t.events;
      if distance > splitDistance * |splits| as real {
        splits := splits + [WorkoutSplit(now, distance)];
        events := events + [SplitsUpdated(splits, false)];
      }
      var currentSpeed, peakSpeed := t.currentSpeed, t.peakSpeed;
      var currentDuration := location.timestamp - last.timestamp;
      if currentDuration != 0.0 {
        currentSpeed := newDistance / currentDuration;
        if currentSpeed > peakSpeed {
          peakSpeed := currentSpeed;
        }
      }
      r := r.(distance := distance, splits := splits, events := events,
              currentSpeed := currentSpeed, peakSpeed := peakSpeed);
    }
    r := r.(lastLocation := Some(location));
  }

  /** The tracking loop of `didUpdateLocations`, on a copy of the tracker. */
  method TrackLoop(dist: Metric, splitDistance: real, now: real, m: Tracker, admitted: seq<Location>) returns (t: Tracker)
    ensures t == TrackAll(dist, splitDistance, now, m, admitted)
  {
    t := m;
    var i := 0;
    while i < |admitted|
      invariant 0 <= i <= |admitted|
      invariant TrackAll(dist, splitDistance, now, m, admitted) == TrackAll(dist, splitDistance, now, t, admitted[i..])
    {
      assert admitted[i..][1..] == admitted[i + 1..];
      t := TrackSample(dist, splitDistance, now, t, admitted[i]);
      i := i + 1;
    }
  }

  /** Over the admitted samples the distance grows by the length of the
      path from the last location through them, and the last location ends
      as the last sample. */
  lemma {:induction false} TrackDistance(dist: Metric, splitDistance: real, now: real, t: Tracker, locs: seq<Location>)
    ensures var r := TrackAll(dist, splitDistance, now, t, locs);
      && r.distance == t.distance + PathLength(dist, t.lastLocation, locs)
      && r.lastLocation == (if locs == [] then t.lastLocation else Some(locs[|locs| - 1]))
    decreases |locs|
  {
    if locs != [] {
      TrackDistance(dist, splitDistance, now, TrackStep(dist, splitDistance, now, t, locs[0]), locs[1..]);
    }
  }

  /** The peak speed never decreases and never falls below the current
      speed. */
  lemma {:induction false} TrackSpeeds(dist: Metric, splitDistance: real, now: real, t: Tracker, locs: seq<Location>)
    requires t.currentSpeed <= t.peakSpeed
    ensures var r := TrackAll(dist, splitDistance, now, t, locs);
      t.peakSpeed <= r.peakSpeed && r.currentSpeed <= r.peakSpeed
    decreases |locs|
  {
    if locs != [] {
      TrackSpeeds(dist, splitDistance, now, TrackStep(dist, splitDistance, now, t, locs[0]), locs[1..]);
    }
  }

  /** One tracked sample appends at most one split, past the threshold for
      its index, at the distance reached; and whenever its hop carries the
      distance past `splitDistance` times the splits so far, it does append
      one. */
  lemma TrackStepSplits(dist: Metric, splitDistance: real, now: real, t: Tracker, loc: Location)
    requires SplitsOrdered(t.splits, t.distance)
    ensures var r := TrackStep(dist, splitDistance, now, t, loc);
      && t.distance <= r.distance
      && SplitsOrdered(r.splits, r.distance)
      && (r.splits == t.splits
          || (r.splits == t.splits + [WorkoutSplit(now, r.distance)] && splitDistance * |t.splits| as real < r.distance))
      && (t.lastLocation.Some? && splitDistance * |t.splits| as real < t.distance + dist(loc, t.lastLocation.value) ==>
            r.splits == t.splits + [WorkoutSplit(now, r.distance)]
            && r.events == t.events + [SplitsUpdated(r.splits, false)])
  {
    if t.lastLocation.Some? {
      var r := TrackStep(dist, splitDistance, now, t, loc);
      assert r.distance == t.distance + dist(loc, t.lastLocation.value);
    }
  }

  /** Every split from index `from` on lies beyond that many split
      distances and was taken at `now`. */
  ghost predicate TakenPast(splits: seq<WorkoutSplit>, from: nat, splitDistance: real, now: real)
  {
    forall k :: from <= k < |splits| ==> splitDistance * k as real < splits[k].distance && splits[k].time == now
  }

  lemma TakenPastExtend(a: seq<WorkoutSplit>, b: seq<WorkoutSplit>, c: seq<WorkoutSplit>, splitDistance: real, now: real)
    requires a <= b <= c && |b| <= |a| + 1
    requires TakenPast(b, |a|, splitDistance, now) && TakenPast(c, |b|, splitDistance, now)
    ensures TakenPast(c, |a|, splitDistance, now)
  {
    forall k | |a| <= k < |c| ensures splitDistance * k as real < c[k].distance && c[k].time == now {
      if k < |b| {
        assert c[k] == b[k];
      }
    }
  }

  /** Splits are only appended. The split at index `k` appended here records
      the first moment the distance passed `k` split distances, so it lies
      beyond `splitDistance * k`; the splits stay ordered by distance. */
  lemma {:induction false} TrackSplits(dist: Metric, splitDistance: real, now: real, t: Tracker, locs: seq<Location>)
    requires SplitsOrdered(t.splits, t.distance)
    ensures var r := TrackAll(dist, splitDistance, now, t, locs);
      && t.splits <= r.splits
      && t.distance <= r.distance
      && SplitsOrdered(r.splits, r.distance)
      && TakenPast(r.splits, |t.splits|, splitDistance, now)
    decreases |locs|
  {
    if locs != [] {
      var s := TrackStep(dist, splitDistance, now, t, locs[0]);
      TrackStepSplits(dist, splitDistance, now, t, locs[0]);
      TrackSplits(dist, splitDistance, now, s, locs[1..]);
      var r := TrackAll(dist, splitDistance, now, s, locs[1..]);
      assert TakenPast(s.splits, |t.splits|, splitDistance, now);
      TakenPastExtend(t.splits, s.splits, r.splits, splitDistance, now);
    }
  }

  /** Tracking keeps the builders, the state and the outstanding calls. */
  lemma {:induction false} TrackFrame(dist: Metric, splitDistance: real, now: real, t: Tracker, locs: seq<Location>)
    ensures var r := TrackAll(dist, splitDistance, now, t, locs);
      && r.state == t.state && r.workoutBuilder == t.workoutBuilder && r.routeBuilder == t.routeBuilder
      && r.pending == t.pending && r.collectionStart == t.collectionStart
    decreases |locs|
  {
    if locs != [] {
      TrackFrame(dist, splitDistance, now, TrackStep(dist, splitDistance, now, t, locs[0]), locs[1..]);
    }
  }

  // -------------------------------------------------- one batch of samples

  /** The waiting loop over a batch, applied only while waiting; otherwise
      every sample passes on. */
  function ScanBatch(dist: Metric, m: Tracker, locations: seq<Location>, now: real): Scan
    requires m.workoutBuilder.Some?
  {
    if m.state.IsWaiting() then ScanAll(dist, now, Scan(m, []), locations) else Scan(m, locations)
  }

  /** `locationManager(_:didUpdateLocations:)`: with no workout builder
      nothing happens. While waiting the batch goes through the
      acquisition loop. If the tracker is then `Started` and has a route
      builder, the admitted samples are tracked and the whole batch, not
      only the admitted samples, is sent to the route builder. */
  function TrackerBatch(dist: Metric, splitDistance: real, m: Tracker, locations: seq<Location>, now: real): Tracker
  {
    if m.workoutBuilder.None? then m
    else
      var s := ScanBatch(dist, m, locations, now);
      if s.t.state != Started || s.t.routeBuilder.None? then s.t
      else
        var t := TrackAll(dist, splitDistance, now, s.t, s.remaining);
        t.(events := t.events + [Call(InsertRouteData(s.t.routeBuilder.value, locations))])
  }

  /** With no workout builder a batch changes nothing. */
  lemma NoBuilderIgnoresBatch(dist: Metric, splitDistance: real, m: Tracker, locations: seq<Location>, now: real)
    requires m.workoutBuilder.None?
    ensures TrackerBatch(dist, splitDistance, m, locations, now) == m
  {
  }

  /** A tracked batch, whether it arrived `Started` or locked on the way,
      ends by sending every sample of the batch to the route builder,
      inaccurate and dropped ones included. */
  lemma TrackedBatchSendsWholeBatch(dist: Metric, splitDistance: real, m: Tracker, locations: seq<Location>, now: real)
    requires m.workoutBuilder.Some? && m.routeBuilder.Some?
    requires ScanBatch(dist, m, locations, now).t.state == Started
    ensures var r := TrackerBatch(dist, splitDistance, m, locations, now);
      |r.events| > 0 && r.events[|r.events| - 1] == Call(InsertRouteData(m.routeBuilder.value, locations))
  {
    if m.state.IsWaiting() {
      ScanAllOutcome(dist, now, Scan(m, []), locations);
    }
  }

  /** What a batch keeps: the invariant, the splits on record, a peak speed
      that never decreases, and a state that moves only forward. */
  ghost predicate BatchKeeps(m: Tracker, r: Tracker)
  {
    && Inv(r)
    && m.splits <= r.splits
    && m.distance <= r.distance
    && m.peakSpeed <= r.peakSpeed
    && (r.state == m.state || r.state == Started || (m.state == WaitingForLocationStream && r.state == WaitingForGPS))
  }

  /** A batch after which the tracker is not tracking. */
  lemma IdleBatchInv(dist: Metric, splitDistance: real, m: Tracker, locations: seq<Location>, now: real)
    requires Inv(m) && m.workoutBuilder.Some?
    requires var s := ScanBatch(dist, m, locations, now); s.t.state != Started || s.t.routeBuilder.None?
    ensures BatchKeeps(m, TrackerBatch(dist, splitDistance, m, locations, now))
  {
    var s := ScanBatch(dist, m, locations, now);
    ScanAllOutcome(dist, now, Scan(m, []), locations);
    if s.t.state == Started && m.state.IsWaiting() {
      assert SplitsOrdered(s.t.splits, s.t.distance);
    }
  }

  /** A batch that is tracked. */
  lemma TrackedBatchInv(dist: Metric, splitDistance: real, m: Tracker, locations: seq<Location>, now: real)
    requires Inv(m) && m.workoutBuilder.Some?
    requires var s := ScanBatch(dist, m, locations, now); s.t.state == Started && s.t.routeBuilder.Some?
    ensures BatchKeeps(m, TrackerBatch(dist, splitDistance, m, locations, now))
  {
    var s := ScanBatch(dist, m, locations, now);
    ScanAllOutcome(dist, now, Scan(m, []), locations);
    assert SplitsOrdered(s.t.splits, s.t.distance);
    var t := TrackAll(dist, splitDistance, now, s.t, s.remaining);
    TrackSpeeds(dist, splitDistance, now, s.t, s.remaining);
    TrackSplits(dist, splitDistance, now, s.t, s.remaining);
    TrackFrame(dist, splitDistance, now, s.t, s.remaining);
  }

  /** A batch keeps every invariant: distance and peak speed never
      decrease, splits are only appended and stay ordered, the peak speed
      stays at least the current speed. */
  lemma BatchPreservesInv(dist: Metric, splitDistance: real, m: Tracker, locations: seq<Location>, now: real)
    requires Inv(m)
    ensures BatchKeeps(m, TrackerBatch(dist, splitDistance, m, locations, now))
  {
    if m.workoutBuilder.Some? {
      var s := ScanBatch(dist, m, locations, now);
      if s.t.state != Started || s.t.routeBuilder.None? {
        IdleBatchInv(dist, splitDistance, m, locations, now);
      } else {
        TrackedBatchInv(dist, splitDistance, m, locations, now);
      }
    }
  }

  /** In a tracked batch the distance grows by exactly the path through the
      admitted samples, and the reference ends at the last of them. */
  lemma TrackedBatchDistance(dist: Metric, splitDistance: real, m: Tracker, locations: seq<Location>, now: real)
    requires m.workoutBuilder.Some?
    requires var s := ScanBatch(dist, m, locations, now); s.t.state == Started && s.t.routeBuilder.Some?
    ensures var s := ScanBatch(dist, m, locations, now);
      var r := TrackerBatch(dist, splitDistance, m, locations, now);
      && r.distance == m.distance + PathLength(dist, s.t.lastLocation, s.remaining)
      && r.lastLocation == (if s.remaining == [] then s.t.lastLocation else Some(s.remaining[|s.remaining| - 1]))
  {
    var s := ScanBatch(dist, m, locations, now);
    if m.state.IsWaiting() {
      ScanAllOutcome(dist, now, Scan(m, []), locations);
    }
    TrackDistance(dist, splitDistance, now, s.t, s.remaining);
  }

  // ----------------------------------------------------------------- stop

  /** The builder's start date is force-unwrapped by `stopWorkout`, so it
      must have been set, and the clock must have moved past it for the
      average speed to be a number. */
  predicate StopReady(m: Tracker, now: real)
  {
    m.workoutBuilder.Some? ==> m.collectionStart.Some? && m.collectionStart.value < now
  }

  /** `stopWorkout(completion:)`: location updates always stop. With no
      workout builder the completion hears `NoWorkoutStarted`. Otherwise one
      final split is appended and published as the final update, and the
      finalisation chain starts with `addMetadata`. The state does not
      change. */
  function StopTracking(m: Tracker, now: real): (r: Tracker)
    requires StopReady(m, now)
  {
    var events := m.events + [Call(StopUpdatingLocation)];
    if m.workoutBuilder.None? then m.(events := events + [Completed(Some(TrackerFailure(NoWorkoutStarted)))])
    else
      var b := m.workoutBuilder.value;
      var start := m.collectionStart.value;
      var splits := m.splits + [WorkoutSplit(now, m.distance)];
      m.(splits := splits,
         events := events + [SplitsUpdated(splits, true), Call(AddMetadata(b, m.peakSpeed, m.distance / (now - start)))],
         pending := m.pending + [AwaitMetadata(b, DistanceSample(m.distance, start, now))])
  }

  /** A failure of the chain drops both builders and reports `error`. */
  function Abandon(m: Tracker, error: Failure): Tracker
  {
    m.(workoutBuilder := None, routeBuilder := None, events := m.events + [Completed(Some(error))])
  }

  /** The `beginCollection` completion: an error stops location updates,
      drops the workout builder and fails the tracker. */
  function BeginCompleted(m: Tracker, i: nat, error: Option<SinkError>): (r: Tracker)
    requires i < |m.pending| && m.pending[i] == AwaitBegin
  {
    var m0 := m.(pending := RemoveAt(m.pending, i));
    if error.Some? then
      m0.(workoutBuilder := None, state := Failed,
          events := m.events + [Call(StopUpdatingLocation), StateUpdated(Failed)])
    else m0
  }

  /** The `addMetadata` completion: whatever the outcome, the distance
      sample is added next. */
  function MetadataAdded(m: Tracker, i: nat): (r: Tracker)
    requires i < |m.pending| && m.pending[i].AwaitMetadata?
  {
    var p := m.pending[i];
    m.(events := m.events + [Call(AddSamples(p.builder, p.sample))],
       pending := RemoveAt(m.pending, i) + [AwaitSamples(p.builder, p.sample.end)])
  }

  /** The `add` completion: whatever the outcome (it is only logged),
      collection is ended at the stop time. */
  function SamplesAdded(m: Tracker, i: nat): (r: Tracker)
    requires i < |m.pending| && m.pending[i].AwaitSamples?
  {
    var p := m.pending[i];
    m.(events := m.events + [Call(EndCollection(p.builder, p.end))],
       pending := RemoveAt(m.pending, i) + [AwaitEnd(p.builder)])
  }

  /** The `endCollection` completion: an error is passed on, an unsuccessful
      outcome reports `ErrorEndingCollection`, both after dropping the
      builders; otherwise the workout is finished. */
  function CollectionEnded(m: Tracker, i: nat, outcome: SinkOutcome): (r: Tracker)
    requires i < |m.pending| && m.pending[i].AwaitEnd?
  {
    var p := m.pending[i];
    var m0 := m.(pending := RemoveAt(m.pending, i));
    if outcome.error.Some? then Abandon(m0, SinkFailure(outcome.error.value))
    else if !outcome.success then Abandon(m0, TrackerFailure(ErrorEndingCollection))
    else m0.(events := m.events + [Call(FinishWorkout(p.builder))], pending := m0.pending + [AwaitFinish(p.builder)])
  }

  /** The `finishWorkout` completion: an error is passed on after dropping
      the builders; a missing workout drops them, stops the tracker and
      reports `MissingWorkout`; otherwise the workout builder is dropped and
      the route, if there is a route builder, is finished against the saved
      workout. Without a route builder the completion is never called. */
  function WorkoutFinished(m: Tracker, i: nat, workout: Option<WorkoutHandle>, error: Option<SinkError>): (r: Tracker)
    requires i < |m.pending| && m.pending[i].AwaitFinish?
  {
    var m0 := m.(pending := RemoveAt(m.pending, i));
    if error.Some? then Abandon(m0, SinkFailure(error.value))
    else if workout.None? then
      m0.(workoutBuilder := None, routeBuilder := None, state := Stopped,
          events := m.events + [StateUpdated(Stopped), Completed(Some(TrackerFailure(MissingWorkout)))])
    else if m.routeBuilder.None? then m0.(workoutBuilder := None)
    else
      var rb := m.routeBuilder.value;
      m0.(workoutBuilder := None, events := m.events + [Call(FinishRoute(rb, workout.value))],
          pending := m0.pending + [AwaitRoute(rb)])
  }

  /** The `finishRoute` completion: the route builder is dropped and the
      completion hears the route's error, if any. The state is left as it
      was. */
  function RouteFinished(m: Tracker, i: nat, error: Option<SinkError>): (r: Tracker)
    requires i < |m.pending| && m.pending[i].AwaitRoute?
  {
    m.(pending := RemoveAt(m.pending, i), routeBuilder := None, events := m.events + [Completed(Reported(error))])
  }

  /** Stopping keeps the invariant and always stops location updates.
      Without a workout builder the completion hears `NoWorkoutStarted` and
      no sink call is made. Otherwise exactly one final split, at the stop
      time and the distance covered, is appended and published as the final
      update, and `addMetadata` receives the peak and the average speed. */
  lemma StopOutcome(m: Tracker, now: real)
    requires Inv(m) && StopReady(m, now)
    ensures var r := StopTracking(m, now);
      && Inv(r)
      && r.state == m.state
      && |r.events| > |m.events| && r.events[|m.events|] == Call(StopUpdatingLocation)
      && (m.workoutBuilder.None? ==>
            r.events == m.events + [Call(StopUpdatingLocation), Completed(Some(TrackerFailure(NoWorkoutStarted)))]
            && r.pending == m.pending && r.splits == m.splits)
      && (m.workoutBuilder.Some? ==>
            var start := m.collectionStart.value;
            && r.splits == m.splits + [WorkoutSplit(now, m.distance)]
            && r.events[|r.events| - 2] == SplitsUpdated(r.splits, true)
            && r.events[|r.events| - 1].effect.AddMetadata?
            && r.events[|r.events| - 1].effect.averageSpeed * (now - start) == m.distance
            && r.pending == m.pending + [AwaitMetadata(m.workoutBuilder.value, DistanceSample(m.distance, start, now))])
  {
    if m.workoutBuilder.Some? {
      var r := StopTracking(m, now);
      var start := m.collectionStart.value;
      assert r.events[|r.events| - 1] == Call(AddMetadata(m.workoutBuilder.value, m.peakSpeed, m.distance / (now - start)));
      assert SplitsOrdered(r.splits, r.distance);
    }
  }

  /** As written, `stopWorkout` cannot stop a tracker that is still waiting
      for GPS: it holds a workout builder whose start date is only set by
      `beginCollection`, so the force-unwrap of `startDate` traps. A tracker
      just started is such a tracker. */
  lemma StopBeforeLockTraps(m: Tracker, workout: Builder, route: Builder, now: real)
    requires Inv(m) && m.state == Before
    ensures var r := StartTracking(m, workout, route);
      r.state == WaitingForLocationStream && r.workoutBuilder.Some? && !StopReady(r, now)
  {
  }

  /** What stopping is meant to do, following `WorkoutStateMachine.stop`:
      while still waiting for GPS there is nothing to save, so the builders
      are dropped, the tracker is `Stopped` and the completion hears no
      error, without any sink call. Otherwise it stops as `stopWorkout`
      does. */
  predicate IntendedStopReady(m: Tracker, now: real)
  {
    m.workoutBuilder.Some? && !m.state.IsWaiting() ==> m.collectionStart.Some? && m.collectionStart.value < now
  }

  function IntendedStopTracking(m: Tracker, now: real): (r: Tracker)
    requires IntendedStopReady(m, now)
  {
    if m.workoutBuilder.Some? && m.state.IsWaiting() then
      m.(workoutBuilder := None, routeBuilder := None, state := Stopped,
         events := m.events + [Call(StopUpdatingLocation), StateUpdated(Stopped), Completed(None)])
    else StopTracking(m, now)
  }

  /** The corrected stop can be called in every reachable state, including
      right after `startWorkout`. While waiting it keeps the invariant, ends
      `Stopped` with both builders dropped, calls no builder, leaves the
      splits and outstanding calls alone and completes exactly once with no
      error; otherwise it is `stopWorkout`. */
  lemma IntendedStopOutcome(m: Tracker, now: real)
    requires Inv(m) && IntendedStopReady(m, now)
    ensures var r := IntendedStopTracking(m, now);
      && Inv(r)
      && (m.state.IsWaiting() && m.workoutBuilder.Some? ==>
            && r.state == Stopped && r.workoutBuilder.None? && r.routeBuilder.None?
            && r.splits == m.splits && r.pending == m.pending
            && r.events == m.events + [Call(StopUpdatingLocation), StateUpdated(Stopped), Completed(None)])
      && (!(m.state.IsWaiting() && m.workoutBuilder.Some?) ==> StopReady(m, now) && r == StopTracking(m, now))
    ensures forall workout: Builder, route: Builder :: m.state == Before ==>
      IntendedStopReady(StartTracking(m, workout, route), now)
  {
    if !(m.state.IsWaiting() && m.workoutBuilder.Some?) {
      StopOutcome(m, now);
    }
  }

  lemma BeginCompletedInv(m: Tracker, i: nat, error: Option<SinkError>)
    requires Inv(m) && i < |m.pending| && m.pending[i] == AwaitBegin
    ensures var r := BeginCompleted(m, i, error);
      && Inv(r)
      && |r.pending| == |m.pending| - 1
      && (error.Some? ==>
            r.state == Failed && r.workoutBuilder.None? && r.routeBuilder == m.routeBuilder
            && r.events == m.events + [Call(StopUpdatingLocation), StateUpdated(Failed)])
      && (error.None? ==> r.state == m.state && r.workoutBuilder == m.workoutBuilder && r.events == m.events)
  {
  }

  lemma MetadataAddedInv(m: Tracker, i: nat)
    requires Inv(m) && i < |m.pending| && m.pending[i].AwaitMetadata?
    ensures Inv(MetadataAdded(m, i))
  {
  }

  lemma SamplesAddedInv(m: Tracker, i: nat)
    requires Inv(m) && i < |m.pending| && m.pending[i].AwaitSamples?
    ensures Inv(SamplesAdded(m, i))
  {
  }

  /** An `endCollection` error or unsuccessful outcome clears both builders
      and reports that error or `ErrorEndingCollection`. */
  lemma CollectionEndedOutcome(m: Tracker, i: nat, outcome: SinkOutcome)
    requires Inv(m) && i < |m.pending| && m.pending[i].AwaitEnd?
    ensures var r := CollectionEnded(m, i, outcome);
      && Inv(r)
      && (outcome.error.Some? ==>
            r.workoutBuilder.None? && r.routeBuilder.None?
            && r.events == m.events + [Completed(Some(SinkFailure(outcome.error.value)))])
      && (outcome.error.None? && !outcome.success ==>
            r.workoutBuilder.None? && r.routeBuilder.None?
            && r.events == m.events + [Completed(Some(TrackerFailure(ErrorEndingCollection)))])
      && (outcome.error.None? && outcome.success ==> r.events == m.events + [Call(FinishWorkout(m.pending[i].builder))])
  {
  }

  /** A `finishWorkout` that hands back no workout stops the tracker and
      reports `MissingWorkout`. */
  lemma WorkoutFinishedOutcome(m: Tracker, i: nat, workout: Option<WorkoutHandle>, error: Option<SinkError>)
    requires Inv(m) && i < |m.pending| && m.pending[i].AwaitFinish?
    ensures var r := WorkoutFinished(m, i, workout, error);
      && Inv(r)
      && r.workoutBuilder.None?
      && (error.None? && workout.None? ==>
            r.state == Stopped && r.routeBuilder.None?
            && r.events == m.events + [StateUpdated(Stopped), Completed(Some(TrackerFailure(MissingWorkout)))])
      && (error.None? && workout.Some? ==> r.state == m.state)
  {
  }

  lemma RouteFinishedInv(m: Tracker, i: nat, error: Option<SinkError>)
    requires Inv(m) && i < |m.pending| && m.pending[i].AwaitRoute?
    ensures var r := RouteFinished(m, i, error);
      Inv(r) && r.routeBuilder.None? && r.state == m.state
  {
  }

  /** A tracker starts only once. A started tracker that keeps its
      invariant never returns to `Before`: no batch, stop or completion
      takes it back there. So `startWorkout` throws `WorkoutAlreadyStarted`
      on every later call, whatever happened in between. */
  lemma NeverBeforeAgain(dist: Metric, splitDistance: real, m: Tracker, locations: seq<Location>, now: real,
                         i: nat, error: Option<SinkError>, outcome: SinkOutcome, workout: Option<WorkoutHandle>)
    requires Inv(m) && m.state != Before
    ensures StartError(m) == Some(WorkoutAlreadyStarted)
    ensures TrackerBatch(dist, splitDistance, m, locations, now).state != Before
    ensures StopReady(m, now) ==> StopTracking(m, now).state != Before
    ensures i < |m.pending| && m.pending[i] == AwaitBegin ==> BeginCompleted(m, i, error).state != Before
    ensures i < |m.pending| && m.pending[i].AwaitMetadata? ==> MetadataAdded(m, i).state != Before
    ensures i < |m.pending| && m.pending[i].AwaitSamples? ==> SamplesAdded(m, i).state != Before
    ensures i < |m.pending| && m.pending[i].AwaitEnd? ==> CollectionEnded(m, i, outcome).state != Before
    ensures i < |m.pending| && m.pending[i].AwaitFinish? ==> WorkoutFinished(m, i, workout, error).state != Before
    ensures i < |m.pending| && m.pending[i].AwaitRoute? ==> RouteFinished(m, i, error).state != Before
  {
    if m.workoutBuilder.Some? {
      var sc := ScanBatch(dist, m, locations, now);
      if m.state.IsWaiting() {
        ScanAllOutcome(dist, now, Scan(m, []), locations);
      }
      TrackFrame(dist, splitDistance, now, sc.t, sc.remaining);
    }
  }

  /** The first three steps of a successful stop: metadata, then samples
      are added, and collection is to be ended. */
  lemma ChainFront(m: Tracker, now: real)
    requires m.state == Started && m.workoutBuilder.Some? && m.collectionStart.Some? && m.pending == []
    requires StopReady(m, now)
    ensures var b := m.workoutBuilder.value;
      var start := m.collectionStart.value;
      var sample := DistanceSample(m.distance, start, now);
      var r0 := StopTracking(m, now);
      var r2 := SamplesAdded(MetadataAdded(r0, 0), 0);
      && r2.state == Started && r2.workoutBuilder == m.workoutBuilder && r2.routeBuilder == m.routeBuilder
      && r2.pending == [AwaitEnd(b)]
      && r2.events == m.events + [Call(StopUpdatingLocation), SplitsUpdated(r0.splits, true),
           Call(AddMetadata(b, m.peakSpeed, m.distance / (now - start))),
           Call(AddSamples(b, sample)), Call(EndCollection(b, now))]
  {
    var b := m.workoutBuilder.value;
    var sample := DistanceSample(m.distance, m.collectionStart.value, now);
    var r0 := StopTracking(m, now);
    assert r0.pending == [AwaitMetadata(b, sample)];
    var r1 := MetadataAdded(r0, 0);
    assert r1.pending == [AwaitSamples(b, now)];
  }

  /** The last three steps of a successful stop: the workout, then the
      route are finished, and the completion hears no error. */
  lemma ChainBack(m: Tracker, b: Builder, rb: Builder, w: WorkoutHandle)
    requires m.state == Started && m.routeBuilder == Some(rb) && m.pending == [AwaitEnd(b)]
    ensures var r3 := CollectionEnded(m, 0, SinkOutcome(true, None));
      var r5 := RouteFinished(WorkoutFinished(r3, 0, Some(w), None), 0, None);
      && r5.state == Started && r5.workoutBuilder.None? && r5.routeBuilder.None? && r5.pending == []
      && r5.events == m.events + [Call(FinishWorkout(b)), Call(FinishRoute(rb, w)), Completed(None)]
  {
    var r3 := CollectionEnded(m, 0, SinkOutcome(true, None));
    assert r3.pending == [AwaitFinish(b)];
    var r4 := WorkoutFinished(r3, 0, Some(w), None);
    assert r4.pending == [AwaitRoute(rb)];
  }

  /** A stop whose whole chain succeeds leaves both builders dropped and
      calls the completion without an error, but the state stays `Started`
      and the delegate never hears `Stopped`. */
  lemma SuccessfulStopKeepsStarted(m: Tracker, now: real, w: WorkoutHandle)
    requires Inv(m) && m.state == Started && m.workoutBuilder.Some? && m.routeBuilder.Some? && m.pending == []
    requires StopReady(m, now)
    ensures var r0 := StopTracking(m, now);
      var r1 := MetadataAdded(r0, 0);
      var r2 := SamplesAdded(r1, 0);
      var r3 := CollectionEnded(r2, 0, SinkOutcome(true, None));
      var r4 := WorkoutFinished(r3, 0, Some(w), None);
      var r5 := RouteFinished(r4, 0, None);
      && r5.state == Started && r5.workoutBuilder.None? && r5.routeBuilder.None? && r5.pending == []
      && r5.events[|r5.events| - 1] == Completed(None)
      && (forall k :: |m.events| <= k < |r5.events| ==> r5.events[k] != StateUpdated(Stopped))
  {
    var b := m.workoutBuilder.value;
    var rb := m.routeBuilder.value;
    var start := m.collectionStart.value;
    var sample := DistanceSample(m.distance, start, now);
    var r0 := StopTracking(m, now);
    var r1 := MetadataAdded(r0, 0);
    var r2 := SamplesAdded(r1, 0);
    var r3 := CollectionEnded(r2, 0, SinkOutcome(true, None));
    var r4 := WorkoutFinished(r3, 0, Some(w), None);
    var r5 := RouteFinished(r4, 0, None);
    var tail := [Call(StopUpdatingLocation), SplitsUpdated(r0.splits, true),
      Call(AddMetadata(b, m.peakSpeed, m.distance / (now - start))),
      Call(AddSamples(b, sample)), Call(EndCollection(b, now)),
      Call(FinishWorkout(b)), Call(FinishRoute(rb, w)), Completed(None)];
    ChainFront(m, now);
    ChainBack(r2, b, rb, w);
    assert r5.events == m.events + tail;
    forall k | |m.events| <= k < |r5.events| ensures r5.events[k] != StateUpdated(Stopped) {
      assert r5.events[k] == tail[k - |m.events|];
    }
  }

  // ------------------------------------------------------------ the object

  /** The tracker object. Each public method is one step on the serial
      queue and is proved to do to `Snap()` exactly what the function of the
      same step does to a `Tracker`; the private helpers each update a few
      fields. */
  class WorkoutTracker {
    const activityType: ActivityType
    const splitDistance: real
    var state: WorkoutState
    var splits: seq<WorkoutSplit>
    var peakSpeed: real
    var currentSpeed: real
    var workoutBuilder: Option<Builder>
    var routeBuilder: Option<Builder>
    var lastLocation: Option<Location>
    var distance: real
    var collectionStart: Option<real>
    var events: seq<Event>
    var pending: seq<Pending>

    function Snap(): Tracker
      reads this
    {
      Tracker(state, splits, peakSpeed, currentSpeed, workoutBuilder, routeBuilder, lastLocation, distance,
              collectionStart, events, pending)
    }

    ghost predicate Valid()
      reads this
    {
      Inv(Snap())
    }

    /** `init(activityType:splitDistance:locationManager:delegate:)`. */
    constructor (activity: ActivityType, splitDistance: real)
      ensures this.activityType == activity && this.splitDistance == splitDistance
      ensures Snap() == Initial() && Valid()
    {
      this.activityType := activity;
      this.splitDistance := splitDistance;
      state, splits, peakSpeed, currentSpeed := Before, [], 0.0, 0.0;
      workoutBuilder, routeBuilder, lastLocation := None, None, None;
      distance, collectionStart := 0.0, None;
      events, pending := [], [];
      InitialInv();
    }

    // -------------------------------------------------------- small updates

    /** Something observable happens. */
    method Log(e: Event)
      modifies this
      ensures Snap() == old(Snap()).(events := old(events) + [e])
    {
      events := events + [e];
    }

    /** A sink call whose completion is now outstanding. */
    method Await(p: Pending)
      modifies this
      ensures Snap() == old(Snap()).(pending := old(pending) + [p])
    {
      pending := pending + [p];
    }

    /** Outstanding call `i` has completed. */
    method Resolve(i: nat)
      requires i < |pending|
      modifies this
      ensures Snap() == old(Snap()).(pending := RemoveAt(old(pending), i))
    {
      pending := RemoveAt(pending, i);
    }

    /** Both builders are dropped. */
    method DropBuilders()
      modifies this
      ensures Snap() == old(Snap()).(workoutBuilder := None, routeBuilder := None)
    {
      workoutBuilder := None;
      routeBuilder := None;
    }

    /** The fields are overwritten with `t`, a few at a time. */
    method Store(t: Tracker)
      modifies this
      ensures Snap() == t
    {
      StoreProgress(t);
      StoreMotion(t);
      StoreBuilders(t);
      StoreLog(t);
    }

    method StoreProgress(t: Tracker)
      modifies this
      ensures Snap() == old(Snap()).(state := t.state, splits := t.splits, distance := t.distance)
    {
      state := t.state;
      splits := t.splits;
      distance := t.distance;
    }

    method StoreMotion(t: Tracker)
      modifies this
      ensures Snap() == old(Snap()).(lastLocation := t.lastLocation, peakSpeed := t.peakSpeed, currentSpeed := t.currentSpeed)
    {
      lastLocation := t.lastLocation;
      peakSpeed := t.peakSpeed;
      currentSpeed := t.currentSpeed;
    }

    method StoreBuilders(t: Tracker)
      modifies this
      ensures Snap() == old(Snap()).(workoutBuilder := t.workoutBuilder, routeBuilder := t.routeBuilder,
                                     collectionStart := t.collectionStart)
    {
      workoutBuilder := t.workoutBuilder;
      routeBuilder := t.routeBuilder;
      collectionStart := t.collectionStart;
    }

    method StoreLog(t: Tracker)
      modifies this
      ensures Snap() == old(Snap()).(events := t.events, pending := t.pending)
    {
      events := t.events;
      pending := t.pending;
    }

    // ---------------------------------------------------------------- start

    /** Last location, distance and splits are reset. */
    method Reset()
      modifies this
      ensures Snap() == old(Snap()).(lastLocation := None, distance := 0.0, splits := [])
    {
      lastLocation := None;
      distance := 0.0;
      splits := [];
    }

    /** The workout builder is taken and the delegate hears that the
        tracker waits for the location stream. */
    method TakeWorkoutBuilder(workout: Builder)
      modifies this
      ensures Snap() == old(Snap()).(workoutBuilder := Some(workout), state := WaitingForLocationStream,
                                     events := old(events) + [StateUpdated(WaitingForLocationStream)])
    {
      workoutBuilder := Some(workout);
      state := WaitingForLocationStream;
      Log(StateUpdated(WaitingForLocationStream));
    }

    /** The route builder is taken and location updates start. */
    method TakeRouteBuilder(route: Builder)
      modifies this
      ensures Snap() == old(Snap()).(routeBuilder := Some(route), events := old(events) + [Call(StartUpdatingLocation)])
    {
      routeBuilder := Some(route);
      Log(Call(StartUpdatingLocation));
    }

    /** `startWorkout(healthStore:)`, given the builders made for the health
        store; `thrown` is the error it throws. */
    method StartWorkout(workout: Builder, route: Builder) returns (thrown: Option<TrackerError>)
      requires Valid()
      modifies this
      ensures Valid() && Snap() == StartTracking(old(Snap()), workout, route)
      ensures thrown == StartError(old(Snap()))
    {
      StartTrackingOutcome(Snap(), workout, route);
      if state != Before {
        thrown := Some(WorkoutAlreadyStarted);
        return;
      }
      thrown := None;
      Reset();
      TakeWorkoutBuilder(workout);
      TakeRouteBuilder(route);
    }

    // ------------------------------------------------------ location batch

    /** `locationManager(_:didUpdateLocations:)`, with `now` the clock
        reading used for every `Date()` of the batch. The loops run on a
        copy of the fields, which is written back at the end. */
    method DidUpdateLocations(dist: Metric, locations: seq<Location>, now: real)
      requires Valid()
      modifies this
      ensures Valid() && Snap() == TrackerBatch(dist, splitDistance, old(Snap()), locations, now)
    {
      BatchPreservesInv(dist, splitDistance, Snap(), locations, now);
      if workoutBuilder.None? {
        return;
      }
      var t := Snap();
      var filtered := locations;
      if state.IsWaiting() {
        var s := ScanLoop(dist, now, t, locations);
        t, filtered := s.t, s.remaining;
      }
      if t.state == Started && t.routeBuilder.Some? {
        var route := t.routeBuilder.value;
        t := TrackLoop(dist, splitDistance, now, t, filtered);
        t := t.(events := t.events + [Call(InsertRouteData(route, locations))]);
      }
      Store(t);
    }

    // ----------------------------------------------------------------- stop

    /** `stopWorkout(completion:)`, with `now` the clock reading of
        `Date()`; what the completion hears is recorded in the events. */
    method StopWorkout(now: real)
      requires Valid() && StopReady(Snap(), now)
      modifies this
      ensures Valid() && Snap() == StopTracking(old(Snap()), now)
    {
      StopOutcome(Snap(), now);
      Log(Call(StopUpdatingLocation));
      if workoutBuilder.None? {
        Log(Completed(Some(TrackerFailure(NoWorkoutStarted))));
        return;
      }
      var builder := workoutBuilder.value;
      var start := collectionStart.value;
      splits := splits + [WorkoutSplit(now, distance)];
      Log(SplitsUpdated(splits, true));
      Log(Call(AddMetadata(builder, peakSpeed, distance / (now - start))));
      Await(AwaitMetadata(builder, DistanceSample(distance, start, now)));
    }

    /** The completion of outstanding `beginCollection` call `i`. */
    method OnBeginCollection(i: nat, error: Option<SinkError>)
      requires Valid() && i < |pending| && pending[i] == AwaitBegin
      modifies this
      ensures Valid() && Snap() == BeginCompleted(old(Snap()), i, error)
    {
      BeginCompletedInv(Snap(), i, error);
      Resolve(i);
      if error.Some? {
        Log(Call(StopUpdatingLocation));
        workoutBuilder := None;
        state := Failed;
        Log(StateUpdated(Failed));
      }
    }

    /** The completion of outstanding `addMetadata` call `i`. */
    method OnMetadataAdded(i: nat)
      requires Valid() && i < |pending| && pending[i].AwaitMetadata?
      modifies this
      ensures Valid() && Snap() == MetadataAdded(old(Snap()), i)
    {
      MetadataAddedInv(Snap(), i);
      var p := pending[i];
      Resolve(i);
      Log(Call(AddSamples(p.builder, p.sample)));
      Await(AwaitSamples(p.builder, p.sample.end));
    }

    /** The completion of outstanding `add` call `i`. */
    method OnSamplesAdded(i: nat)
      requires Valid() && i < |pending| && pending[i].AwaitSamples?
      modifies this
      ensures Valid() && Snap() == SamplesAdded(old(Snap()), i)
    {
      SamplesAddedInv(Snap(), i);
      var p := pending[i];
      Resolve(i);
      Log(Call(EndCollection(p.builder, p.end)));
      Await(AwaitEnd(p.builder));
    }

    /** The completion of outstanding `endCollection` call `i`. */
    method OnCollectionEnded(i: nat, outcome: SinkOutcome)
      requires Valid() && i < |pending| && pending[i].AwaitEnd?
      modifies this
      ensures Valid() && Snap() == CollectionEnded(old(Snap()), i, outcome)
    {
      CollectionEndedOutcome(Snap(), i, outcome);
      var p := pending[i];
      Resolve(i);
      if outcome.error.Some? {
        DropBuilders();
        Log(Completed(Some(SinkFailure(outcome.error.value))));
        return;
      }
      if !outcome.success {
        DropBuilders();
        Log(Completed(Some(TrackerFailure(ErrorEndingCollection))));
        return;
      }
      Log(Call(FinishWorkout(p.builder)));
      Await(AwaitFinish(p.builder));
    }

    /** The completion of outstanding `finishWorkout` call `i`. */
    method OnWorkoutFinished(i: nat, workout: Option<WorkoutHandle>, error: Option<SinkError>)
      requires Valid() && i < |pending| && pending[i].AwaitFinish?
      modifies this
      ensures Valid() && Snap() == WorkoutFinished(old(Snap()), i, workout, error)
    {
      WorkoutFinishedOutcome(Snap(), i, workout, error);
      Resolve(i);
      if error.Some? {
        DropBuilders();
        Log(Completed(Some(SinkFailure(error.value))));
        return;
      }
      if workout.None? {
        DropBuilders();
        state := Stopped;
        Log(StateUpdated(Stopped));
        Log(Completed(Some(TrackerFailure(MissingWorkout))));
        return;
      }
      workoutBuilder := None;
      if routeBuilder.Some? {
        Log(Call(FinishRoute(routeBuilder.value, workout.value)));
        Await(AwaitRoute(routeBuilder.value));
      }
    }

    /** The completion of outstanding `finishRoute` call `i`. */
    method OnRouteFinished(i: nat, error: Option<SinkError>)
      requires Valid() && i < |pending| && pending[i].AwaitRoute?
      modifies this
      ensures Valid() && Snap() == RouteFinished(old(Snap()), i, error)
    {
      RouteFinishedInv(Snap(), i, error);
      Resolve(i);
      routeBuilder := None;
      Log(Completed(Reported(error)));
    }
  }

  // ------------------------------------------------------------- settings

  /** The raw value under which a distance unit is stored. */
  function UnitName(u: DistanceUnit): string
  {
    match u
    case Miles => "Miles"
    case Kilometers => "Kilometers"
  }

  /** `DistanceUnit(rawValue:)`: only the exact raw values parse. */
  function ParseUnit(raw: string): Option<DistanceUnit>
  {
    if raw == "Miles" then Some(Miles)
    else if raw == "Kilometers" then Some(Kilometers)
    else None
  }

  /** Parsing is the inverse of taking the raw value. */
  lemma ParseUnitInvertsName(u: DistanceUnit, raw: string)
    ensures ParseUnit(UnitName(u)) == Some(u)
    ensures ParseUnit(raw) == Some(u) <==> raw == UnitName(u)
  {
  }

  /** `getDistanceUnitSetting()`, given the string stored under
      "distance_units", if any: a stored raw value is parsed, anything else
      falls back to miles. */
  function GetDistanceUnitSetting(stored: Option<string>): DistanceUnit
  {
    if stored.Some? && ParseUnit(stored.value).Some? then ParseUnit(stored.value).value else Miles
  }

  /** A stored unit reads back as itself; a missing or unknown setting
      reads as miles. */
  lemma DistanceUnitSettingRoundTrip(u: DistanceUnit, stored: Option<string>)
    ensures GetDistanceUnitSetting(Some(UnitName(u))) == u
    ensures (stored.None? || (stored.value != UnitName(Miles) && stored.value != UnitName(Kilometers)))
            ==> GetDistanceUnitSetting(stored) == Miles
  {
    ParseUnitInvertsName(u, UnitName(u));
  }

  /** The activities a tracker may be created for. */
  const SupportedWorkouts: seq<ActivityType> := [Walking, Running, Cycling, WheelchairWalkPace, WheelchairRunPace]

  /** `HKWorkoutActivityType.String()`: the name of an activity, with one
      shared name for every unlisted activity. */
  function ActivityName(a: ActivityType): string
  {
    match a
    case Running => "running"
    case Walking => "walking"
    case Cycling => "cycling"
    case WheelchairRunPace => "wheelchairRunPace"
    case WheelchairWalkPace => "wheelchairWalkPace"
    case _ => "unknownWorkoutActivityType"
  }

  /** Every supported activity has a name of its own. */
  lemma SupportedActivitiesNamed(a: ActivityType, b: ActivityType)
    ensures a in SupportedWorkouts ==> ActivityName(a) != "unknownWorkoutActivityType"
    ensures a in SupportedWorkouts && ActivityName(a) == ActivityName(b) ==> a == b
    ensures a !in SupportedWorkouts ==> ActivityName(a) == "unknownWorkoutActivityType"
  {
  }
}
