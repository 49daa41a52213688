/** The current generation of the workout tracker (`WorkoutStateMachine`).
    Every public method runs as one atomic step on the tracker's serial
    queue; each asynchronous sink completion is a separate step that may run
    at any later point. The pure functions below give the meaning of each
    step on a `Machine` value; the class at the end performs the same steps
    on its fields and is proved against them. */
module StateMachine {
  import opened Workout

  datatype WorkoutState =
    | Before
    | WaitingForGPSToStart
    | WaitingForGPSAccuracy
    | Started
    | Paused  // declared by `WorkoutState`, never entered
    | Stopped
    | Failed
  {
    predicate IsWaiting() { this == WaitingForGPSToStart || this == WaitingForGPSAccuracy }
  }

  const PeakSpeedBufferSize: nat := 5
  /** The split distance is fixed at 100 m in this generation. */
  const SplitDistance: real := 100.0

  /** Everything the state machine holds, as one value. */
  datatype Machine = Machine(
    state: WorkoutState,
    activity: ActivityType,
    splits: seq<WorkoutSplit>,
    workoutBuilder: Option<Builder>,
    routeBuilder: Option<Builder>,
    peakSpeedBuffer: seq<Location>,
    peakSpeed: real,
    currentSpeed: real,
    lastLocation: Option<Location>,
    distance: real,
    hasLocationManager: bool,
    subscribed: bool,
    collectionStart: Option<real>,  // the workout builder's start date
    effects: seq<Effect>,
    pending: seq<Pending>)  // outstanding sink calls, completing in any order

  function Initial(): Machine
  {
    Machine(Before, Walking, [], None, None, [], 0.0, 0.0, None, 0.0, false, false, None, [], [])
  }

  /** What every reachable machine satisfies. */
  ghost predicate Inv(m: Machine)
  {
    && |m.peakSpeedBuffer| <= PeakSpeedBufferSize
    && 0.0 <= m.distance
    && m.currentSpeed <= m.peakSpeed
    && SplitsOrdered(m.splits, m.distance)
    && (m.state.IsWaiting() ==> m.distance == 0.0)
    && (m.state == Before ==> m.workoutBuilder.None? && m.routeBuilder.None? && m.pending == [])
    && (m.state != Before ==> m.hasLocationManager)
    && (m.workoutBuilder.Some? ==> m.state.IsWaiting() || m.state == Started)
    && (m.workoutBuilder.Some? && m.state == Started ==> m.collectionStart.Some?)
    && (forall p :: p in m.pending && p.AwaitRoute? ==> m.workoutBuilder.None?)
  }

  lemma InitialInv()
    ensures Inv(Initial()) && Initial().state == Before
  {
  }

  // ---------------------------------------------------------------- start

  /** `start`: the caller must only start a machine that is still `Before`
      (`start` asserts it). Distance and splits are reset, new builders
      are taken from the health manager, and the location stream is
      subscribed to and started. The last location, the peak-speed buffer
      and the speeds are NOT reset. */
  function StartWorkout(m: Machine, activity: ActivityType, workout: Builder, route: Builder): (r: Machine)
    requires m.state == Before
  {
    m.(activity := activity, hasLocationManager := true, distance := 0.0,
       workoutBuilder := Some(workout), routeBuilder := Some(route),
       state := WaitingForGPSToStart, splits := [], subscribed := true,
       effects := m.effects + [StartUpdatingLocation])
  }

  lemma StartOutcome(m: Machine, activity: ActivityType, workout: Builder, route: Builder)
    requires Inv(m) && m.state == Before
    ensures var r := StartWorkout(m, activity, workout, route);
      && Inv(r)
      && r.state == WaitingForGPSToStart && r.distance == 0.0 && r.splits == []
      && r.workoutBuilder == Some(workout) && r.routeBuilder == Some(route)
      && r.lastLocation == m.lastLocation && r.peakSpeedBuffer == m.peakSpeedBuffer
      && r.peakSpeed == m.peakSpeed && r.pending == []
      && r.effects == m.effects + [StartUpdatingLocation]
  {
  }

  // ------------------------------------------------ GPS-acquisition filter

  /** What the waiting-state loop carries from one sample to the next. */
  datatype Acquisition = Acquisition(
    last: Option<Location>,
    remaining: seq<Location>,
    next: WorkoutState,
    newSplits: seq<WorkoutSplit>)

  /** One sample while waiting for GPS lock. `entry` is the state on entry
      to the batch: the lock rule looks at it, not at the state the batch
      has reached so far. */
  function AcquireStep(dist: Metric, entry: WorkoutState, now: real, a: Acquisition, loc: Location): Acquisition
  {
    if a.last.None? then a.(last := Some(loc))
    else if dist(loc, a.last.value) > JumpLimit then a.(last := Some(loc))
    else if IsLockAccuracy(loc.accuracy) then
      a.(next := Started, newSplits := a.newSplits + [WorkoutSplit(now, 0.0)], remaining := a.remaining + [loc])
    else if entry == WaitingForGPSToStart then a.(next := WaitingForGPSAccuracy)
    else a
  }

  function Acquire(dist: Metric, entry: WorkoutState, now: real, a: Acquisition, locs: seq<Location>): Acquisition
    decreases |locs|
  {
    if locs == [] then a else Acquire(dist, entry, now, AcquireStep(dist, entry, now, a, locs[0]), locs[1..])
  }

  /** Processing `locs + [loc]` is processing `locs`, then `loc`. */
  lemma {:induction false} AcquireSnoc(dist: Metric, entry: WorkoutState, now: real, a: Acquisition, locs: seq<Location>, loc: Location)
    ensures Acquire(dist, entry, now, a, locs + [loc]) == AcquireStep(dist, entry, now, Acquire(dist, entry, now, a, locs), loc)
    decreases |locs|
  {
    if locs == [] {
      assert [loc][1..] == [];
    } else {
      assert (locs + [loc])[1..] == locs[1..] + [loc];
      AcquireSnoc(dist, entry, now, AcquireStep(dist, entry, now, a, locs[0]), locs[1..], loc);
    }
  }

  /** The acquisition state just before sample `i` of the batch is examined. */
  function AcquiredBefore(dist: Metric, entry: WorkoutState, now: real, last: Option<Location>, locs: seq<Location>, i: nat): Acquisition
    requires i <= |locs|
  {
    Acquire(dist, entry, now, Acquisition(last, [], entry, []), locs[..i])
  }

  /** A sample seen with no reference location, or further than the jump
      limit from it, becomes the reference and is not admitted. */
  lemma JumpBecomesReference(dist: Metric, entry: WorkoutState, now: real, last: Option<Location>, locs: seq<Location>, i: nat)
    requires i < |locs|
    requires var ref := AcquiredBefore(dist, entry, now, last, locs, i).last;
      ref.None? || dist(locs[i], ref.value) > JumpLimit
    ensures AcquiredBefore(dist, entry, now, last, locs, i + 1).last == Some(locs[i])
    ensures AcquiredBefore(dist, entry, now, last, locs, i + 1).remaining == AcquiredBefore(dist, entry, now, last, locs, i).remaining
  {
    assert locs[..i + 1] == locs[..i] + [locs[i]];
    AcquireSnoc(dist, entry, now, Acquisition(last, [], entry, []), locs[..i], locs[i]);
  }

  /** A sample within the jump limit of the reference and with lock accuracy
      is admitted and adds a zero-distance split; one without lock accuracy
      is dropped, and the reference does not move in either case. */
  lemma CloseSampleClassified(dist: Metric, entry: WorkoutState, now: real, last: Option<Location>, locs: seq<Location>, i: nat)
    requires i < |locs|
    requires var ref := AcquiredBefore(dist, entry, now, last, locs, i).last;
      ref.Some? && dist(locs[i], ref.value) <= JumpLimit
    ensures var before := AcquiredBefore(dist, entry, now, last, locs, i);
      var after := AcquiredBefore(dist, entry, now, last, locs, i + 1);
      && after.last == before.last
      && (IsLockAccuracy(locs[i].accuracy) ==>
            after.remaining == before.remaining + [locs[i]] && after.next == Started
            && after.newSplits == before.newSplits + [WorkoutSplit(now, 0.0)])
      && (!IsLockAccuracy(locs[i].accuracy) ==>
            after.remaining == before.remaining && after.newSplits == before.newSplits
            && after.next == (if entry == WaitingForGPSToStart then WaitingForGPSAccuracy else before.next))
  {
    assert locs[..i + 1] == locs[..i] + [locs[i]];
    AcquireSnoc(dist, entry, now, Acquisition(last, [], entry, []), locs[..i], locs[i]);
  }

  /** What the waiting-state loop keeps true of its running values. */
  ghost predicate AcquisitionConsistent(entry: WorkoutState, now: real, a: Acquisition)
  {
    && |a.newSplits| == |a.remaining|
    && (forall i :: 0 <= i < |a.newSplits| ==> a.newSplits[i] == WorkoutSplit(now, 0.0))
    && (forall x :: x in a.remaining ==> IsLockAccuracy(x.accuracy))
    && (a.next == Started || a.next == WaitingForGPSAccuracy || a.next == entry)
    && (a.next == Started ==> |a.newSplits| > 0)
    && (a.next == entry ==> |a.newSplits| == 0)
  }

  /** Over a whole batch: only lock-accuracy samples of the batch are
      admitted, each with one zero-distance split; the state reached is
      `Started` only if some sample locked, and stays the entry state only
      if none did. From `WaitingForGPSAccuracy` it is `Started` exactly when
      some sample locked. */
  lemma {:induction false} AcquireOutcome(dist: Metric, entry: WorkoutState, now: real, a: Acquisition, locs: seq<Location>)
    requires entry.IsWaiting()
    requires AcquisitionConsistent(entry, now, a)
    ensures var r := Acquire(dist, entry, now, a, locs);
      && AcquisitionConsistent(entry, now, r)
      && (forall x :: x in r.remaining ==> x in a.remaining || x in locs)
      && a.remaining <= r.remaining && a.newSplits <= r.newSplits
      && (entry == WaitingForGPSAccuracy ==> (r.next == Started <==> |r.newSplits| > 0))
    decreases |locs|
  {
    if locs != [] {
      var b := AcquireStep(dist, entry, now, a, locs[0]);
      assert AcquisitionConsistent(entry, now, b);
      AcquireOutcome(dist, entry, now, b, locs[1..]);
      var r := Acquire(dist, entry, now, a, locs);
      forall x | x in r.remaining ensures x in a.remaining || x in locs {
        if x !in b.remaining {
          assert x in locs[1..];
        }
      }
    }
  }

  /** From `WaitingForGPSToStart`, a sample that fails the lock rule after
      one that passed it sends the batch back to `WaitingForGPSAccuracy`,
      although a zero-distance split and a `beginCollection` call were
      already produced for the locked sample. */
  lemma LaterPoorSampleUndoesLock(dist: Metric, now: real, ref: Location, good: Location, poor: Location)
    requires dist(good, ref) <= JumpLimit && dist(poor, ref) <= JumpLimit
    requires IsLockAccuracy(good.accuracy) && !IsLockAccuracy(poor.accuracy)
    ensures var r := Acquire(dist, WaitingForGPSToStart, now, Acquisition(Some(ref), [], WaitingForGPSToStart, []), [good, poor]);
      r.next == WaitingForGPSAccuracy && r.newSplits == [WorkoutSplit(now, 0.0)] && r.remaining == [good]
  {
    var a0 := Acquisition(Some(ref), [], WaitingForGPSToStart, []);
    var a1 := AcquireStep(dist, WaitingForGPSToStart, now, a0, good);
    assert a1 == Acquisition(Some(ref), [good], Started, [WorkoutSplit(now, 0.0)]);
    var a2 := AcquireStep(dist, WaitingForGPSToStart, now, a1, poor);
    assert [good, poor][1..] == [poor];
    assert Acquire(dist, WaitingForGPSToStart, now, a0, [good, poor]) == Acquire(dist, WaitingForGPSToStart, now, a1, [poor]);
    assert Acquire(dist, WaitingForGPSToStart, now, a1, [poor]) == a2;
  }

  // ------------------------------------------ distance, splits and speed

  /** What the tracking loop carries from one admitted sample to the next. */
  datatype Tally = Tally(
    distance: real,
    last: Option<Location>,
    buffer: seq<Location>,
    peakSpeed: real,
    currentSpeed: real,
    newSplits: seq<WorkoutSplit>)

  /** The peak-speed buffer after `loc` is pushed: the oldest sample is
      evicted first once the buffer holds five. */
  function Push(buffer: seq<Location>, loc: Location): (r: seq<Location>)
    ensures |r| > 0
  {
    if |buffer| >= PeakSpeedBufferSize then buffer[1..] + [loc] else buffer + [loc]
  }

  /** Pushing onto a buffer of at most five keeps the newest samples of
      `buffer + [loc]`, at most five of them. */
  lemma PushEvictsOldest(buffer: seq<Location>, loc: Location)
    requires |buffer| <= PeakSpeedBufferSize
    ensures var r := Push(buffer, loc);
      && |r| == Min(PeakSpeedBufferSize, |buffer| + 1)
      && r == (buffer + [loc])[|buffer| + 1 - |r|..]
  {
  }

  function Min(x: int, y: int): int { if x <= y then x else y }

  /** No hop between consecutive samples of the window is faster than the
      sanity limit. */
  predicate WindowPlausible(dist: Metric, w: seq<Location>)
  {
    forall i :: 1 <= i < |w| ==> !TooFast(dist(w[i], w[i - 1]), w[i].timestamp - w[i - 1].timestamp)
  }

  /** The hop check over a full buffer, stopping at the first hop that is too
      fast. */
  method CheckWindow(dist: Metric, w: seq<Location>) returns (possible: bool)
    ensures possible <==> WindowPlausible(dist, w)
  {
    possible := true;
    var i := 1;
    while i < |w|
      invariant 1 <= i <= |w| || |w| == 0
      invariant possible
      invariant forall k :: 1 <= k < i && k < |w| ==> !TooFast(dist(w[k], w[k - 1]), w[k].timestamp - w[k - 1].timestamp)
    {
      if TooFast(dist(w[i], w[i - 1]), w[i].timestamp - w[i - 1].timestamp) {
        possible := false;
        return;
      }
      i := i + 1;
    }
  }

  /** The distance after `loc` is admitted: the hop from the last location
      is added when there is one. */
  function Advance(dist: Metric, t: Tally, loc: Location): (d: real)
    ensures t.distance <= d
  {
    if t.last.Some? then t.distance + dist(loc, t.last.value) else t.distance
  }

  /** A split is appended when there was a last location and the distance
      has passed `SplitDistance` times the splits published before the batch. */
  function SplitsAfter(base: nat, t: Tally, loc: Location, d: real): seq<WorkoutSplit>
  {
    if t.last.Some? && d > SplitDistance * base as real
    then t.newSplits + [WorkoutSplit(loc.timestamp, d)] else t.newSplits
  }

  /** The peak and current speed after `loc` is pushed into the window `w`:
      updated only when the window is full, no hop in it is too fast, and it
      spans a positive duration. */
  function SpeedsAfter(dist: Metric, w: seq<Location>, loc: Location, peak: real, current: real): (real, real)
    requires |w| > 0
  {
    var duration := loc.timestamp - w[0].timestamp;
    if |w| == PeakSpeedBufferSize && WindowPlausible(dist, w) && duration > 0.0 then
      var speed := dist(loc, w[0]) / duration;
      (if speed > peak then speed else peak, speed)
    else (peak, current)
  }

  /** One admitted sample once tracking has started. `base` is the number of
      splits published before the batch: the threshold does not move within
      a batch. */
  function AccumulateStep(dist: Metric, base: nat, t: Tally, loc: Location): Tally
  {
    var d := Advance(dist, t, loc);
    var w := Push(t.buffer, loc);
    var speeds := SpeedsAfter(dist, w, loc, t.peakSpeed, t.currentSpeed);
    Tally(d, Some(loc), w, speeds.0, speeds.1, SplitsAfter(base, t, loc, d))
  }

  function Accumulate(dist: Metric, base: nat, t: Tally, locs: seq<Location>): Tally
    decreases |locs|
  {
    if locs == [] then t else Accumulate(dist, base, AccumulateStep(dist, base, t, locs[0]), locs[1..])
  }

  /** Over a batch of admitted samples the distance grows by exactly the
      length of the path from the last location through the samples, and the
      last location ends as the last sample. */
  lemma {:induction false} AccumulateDistance(dist: Metric, base: nat, t: Tally, locs: seq<Location>)
    ensures var r := Accumulate(dist, base, t, locs);
      && r.distance == t.distance + PathLength(dist, t.last, locs)
      && r.last == (if locs == [] then t.last else Some(locs[|locs| - 1]))
    decreases |locs|
  {
    if locs != [] {
      AccumulateDistance(dist, base, AccumulateStep(dist, base, t, locs[0]), locs[1..]);
    }
  }

  /** The buffer after pushing every sample of `locs` in turn. */
  function PushAll(buffer: seq<Location>, locs: seq<Location>): seq<Location>
    decreases |locs|
  {
    if locs == [] then buffer else PushAll(Push(buffer, locs[0]), locs[1..])
  }

  /** Pushing a run of samples keeps the newest samples of `buffer + locs`,
      at most five, the oldest evicted first. */
  lemma {:induction false} PushAllKeepsNewest(buffer: seq<Location>, locs: seq<Location>)
    requires |buffer| <= PeakSpeedBufferSize
    ensures var r := PushAll(buffer, locs);
      && |r| == Min(PeakSpeedBufferSize, |buffer| + |locs|)
      && r == (buffer + locs)[|buffer| + |locs| - |r|..]
    decreases |locs|
  {
    if locs != [] {
      var sb := Push(buffer, locs[0]);
      PushEvictsOldest(buffer, locs[0]);
      PushAllKeepsNewest(sb, locs[1..]);
      var rb := PushAll(sb, locs[1..]);
      var all := buffer + locs;
      var k := |buffer| + 1 - |sb|;
      assert sb == all[k..|buffer| + 1] by {
        assert buffer + [locs[0]] == all[..|buffer| + 1];
      }
      assert sb + locs[1..] == all[k..];
      SliceOfSlice(all, k, |sb| + |locs| - 1 - |rb|);
    }
  }

  /** The tracking loop's buffer is the samples pushed in turn. */
  lemma {:induction false} AccumulateWindow(dist: Metric, base: nat, t: Tally, locs: seq<Location>)
    ensures Accumulate(dist, base, t, locs).buffer == PushAll(t.buffer, locs)
    decreases |locs|
  {
    if locs != [] {
      AccumulateWindow(dist, base, AccumulateStep(dist, base, t, locs[0]), locs[1..]);
    }
  }

  /** The buffer keeps the newest admitted samples, at most five, the oldest
      evicted first. */
  lemma AccumulateBuffer(dist: Metric, base: nat, t: Tally, locs: seq<Location>)
    requires |t.buffer| <= PeakSpeedBufferSize
    ensures var r := Accumulate(dist, base, t, locs);
      && |r.buffer| == Min(PeakSpeedBufferSize, |t.buffer| + |locs|)
      && r.buffer == (t.buffer + locs)[|t.buffer| + |locs| - |r.buffer|..]
  {
    AccumulateWindow(dist, base, t, locs);
    PushAllKeepsNewest(t.buffer, locs);
  }

  lemma SliceOfSlice<T>(a: seq<T>, i: nat, j: nat)
    requires i + j <= |a|
    ensures a[i..][j..] == a[i + j..]
  {
  }

  /** The peak speed never decreases and never falls below the current speed. */
  lemma {:induction false} AccumulateSpeeds(dist: Metric, base: nat, t: Tally, locs: seq<Location>)
    requires t.currentSpeed <= t.peakSpeed
    ensures var r := Accumulate(dist, base, t, locs);
      t.peakSpeed <= r.peakSpeed && r.currentSpeed <= r.peakSpeed
    decreases |locs|
  {
    if locs != [] {
      AccumulateSpeeds(dist, base, AccumulateStep(dist, base, t, locs[0]), locs[1..]);
    }
  }

  /** The speed sanity check of one admitted sample: with `w` the buffer
      after the push, the speeds change only when `w` is full and no hop in
      it is faster than 10 m/s, so a too-fast hop anywhere in the window
      leaves them as they were. When the window is full, plausible and
      spans a positive duration, the current speed is the distance from the
      window's oldest sample over that duration, and the peak rises to it
      when it is higher. */
  lemma SpeedGate(dist: Metric, base: nat, t: Tally, loc: Location)
    ensures var r := AccumulateStep(dist, base, t, loc);
      var w := Push(t.buffer, loc);
      var duration := loc.timestamp - w[0].timestamp;
      && r.buffer == w
      && ((r.peakSpeed, r.currentSpeed) != (t.peakSpeed, t.currentSpeed) ==>
            |w| == PeakSpeedBufferSize && WindowPlausible(dist, w))
      && ((exists k :: 1 <= k < |w| && TooFast(dist(w[k], w[k - 1]), w[k].timestamp - w[k - 1].timestamp)) ==>
            r.peakSpeed == t.peakSpeed && r.currentSpeed == t.currentSpeed)
      && (|w| != PeakSpeedBufferSize ==> r.peakSpeed == t.peakSpeed && r.currentSpeed == t.currentSpeed)
      && (|w| == PeakSpeedBufferSize && WindowPlausible(dist, w) && duration > 0.0 ==>
            && r.currentSpeed == dist(loc, w[0]) / duration
            && r.peakSpeed == (if r.currentSpeed > t.peakSpeed then r.currentSpeed else t.peakSpeed))
  {
  }

  /** Splits are only appended; each appended split lies past the batch's
      threshold and at or beyond the distance on entry, and the splits stay
      in non-decreasing order of distance. */
  lemma {:induction false} AccumulateSplits(dist: Metric, base: nat, t: Tally, locs: seq<Location>)
    requires SplitsOrdered(t.newSplits, t.distance)
    ensures var r := Accumulate(dist, base, t, locs);
      && t.newSplits <= r.newSplits
      && t.distance <= r.distance
      && SplitsOrdered(r.newSplits, r.distance)
      && (forall i :: |t.newSplits| <= i < |r.newSplits| ==>
            SplitDistance * base as real < r.newSplits[i].distance && t.distance <= r.newSplits[i].distance)
    decreases |locs|
  {
    if locs != [] {
      var s := AccumulateStep(dist, base, t, locs[0]);
      assert SplitsOrdered(s.newSplits, s.distance);
      AccumulateSplits(dist, base, s, locs[1..]);
    }
  }

  // ------------------------------------------------- one batch of samples

  /** One `beginCollection` call per sample that locked. */
  function Begins(builder: Builder, now: real, k: nat): (r: seq<Effect>)
    ensures |r| == k && forall i :: 0 <= i < k ==> r[i] == BeginCollection(builder, now)
  {
    seq(k, _ => BeginCollection(builder, now))
  }

  /** The splits after a batch as `processLocationUpdate` publishes them: the batch's new
      splits are appended only when there are more than one of them. */
  function PublishedSplits(splits: seq<WorkoutSplit>, newSplits: seq<WorkoutSplit>): seq<WorkoutSplit>
  {
    if |newSplits| > 1 then splits + newSplits else splits
  }

  /** The splits after a batch with every new split published. */
  function IntendedPublishedSplits(splits: seq<WorkoutSplit>, newSplits: seq<WorkoutSplit>): seq<WorkoutSplit>
  {
    splits + newSplits
  }

  /** The GPS-acquisition filter over a batch: applied only while waiting;
      otherwise every sample passes on and the state is kept. */
  function BatchAcquisition(dist: Metric, m: Machine, locations: seq<Location>, now: real): Acquisition
  {
    if m.state.IsWaiting()
    then Acquire(dist, m.state, now, Acquisition(m.lastLocation, [], m.state, []), locations)
    else Acquisition(m.lastLocation, locations, m.state, [])
  }

  /** The machine after the acquisition filter: the reference location has
      moved, and each locked sample has made a `beginCollection` call. */
  function AfterAcquisition(m: Machine, acq: Acquisition, now: real): Machine
    requires m.workoutBuilder.Some?
  {
    var locks := |acq.newSplits|;
    m.(lastLocation := acq.last,
       effects := m.effects + Begins(m.workoutBuilder.value, now, locks),
       pending := m.pending + AwaitBegins(locks),
       collectionStart := if locks > 0 then Some(now) else m.collectionStart)
  }

  /** One outstanding `beginCollection` completion per sample that locked. */
  function AwaitBegins(k: nat): (r: seq<Pending>)
    ensures |r| == k && forall i :: 0 <= i < k ==> r[i] == AwaitBegin
  {
    seq(k, _ => AwaitBegin)
  }

  /** The rest of a batch once the acquisition filter has run on it. */
  function FinishBatch(dist: Metric, m: Machine, acq: Acquisition, now: real): Machine
    requires m.workoutBuilder.Some?
  {
    var m1 := AfterAcquisition(m, acq, now);
    var admitted := AccurateOnly(acq.remaining);
    if acq.next != Started then
      m1.(state := acq.next, splits := PublishedSplits(m.splits, acq.newSplits))
    else if m.routeBuilder.None? then m1
    else
      var t := Accumulate(dist, |m.splits|,
                 Tally(m.distance, acq.last, m.peakSpeedBuffer, m.peakSpeed, m.currentSpeed, acq.newSplits),
                 admitted);
      m1.(distance := t.distance, lastLocation := t.last, peakSpeedBuffer := t.buffer,
          peakSpeed := t.peakSpeed, currentSpeed := t.currentSpeed,
          effects := m1.effects + [InsertRouteData(m.routeBuilder.value, admitted)],
          state := Started, splits := PublishedSplits(m.splits, t.newSplits))
  }

  /** `processLocationUpdate(locations:)`: one batch from the location stream.
      With no workout builder nothing happens. While waiting, the batch goes
      through the GPS-acquisition filter; every batch then goes through the
      accuracy gate. Distance, splits, speeds and route data are processed
      only if the batch leaves the machine `Started` and a route builder
      exists (without one the method returns before publishing anything).
      Finally the state and the new splits are published. */
  function ProcessBatch(dist: Metric, m: Machine, locations: seq<Location>, now: real): Machine
  {
    if m.workoutBuilder.None? then m
    else FinishBatch(dist, m, BatchAcquisition(dist, m, locations, now), now)
  }

  /** With no workout builder a batch changes nothing: no state, distance,
      split or sink effect. */
  lemma NoBuilderIgnoresBatch(dist: Metric, m: Machine, locations: seq<Location>, now: real)
    requires m.workoutBuilder.None?
    ensures ProcessBatch(dist, m, locations, now) == m
  {
  }

  lemma AppendOrdered(a: seq<WorkoutSplit>, b: seq<WorkoutSplit>, x: real, d: real)
    requires SplitsOrdered(a, x) && SplitsOrdered(b, d) && x <= d
    requires forall j :: 0 <= j < |b| ==> x <= b[j].distance
    ensures SplitsOrdered(a + b, d)
  {
  }

  /** What the acquisition filter guarantees about a batch: only samples of
      the batch with lock accuracy pass, each with one zero-distance split;
      the state it computes is the entry state, `Started`, or (from
      `WaitingForGPSToStart`) `WaitingForGPSAccuracy`; it is `Started` on a
      change only if some sample locked; a `Started` machine stays `Started`
      and creates no zero-distance split. */
  ghost predicate AcquisitionSound(m: Machine, acq: Acquisition, locations: seq<Location>)
  {
    && (forall x :: x in acq.remaining ==> x in locations)
    && (forall i :: 0 <= i < |acq.newSplits| ==> acq.newSplits[i].distance == 0.0)
    && (acq.newSplits != [] ==> m.state.IsWaiting())
    && (acq.next == m.state || acq.next == Started || (m.state == WaitingForGPSToStart && acq.next == WaitingForGPSAccuracy))
    && (acq.next == Started && m.state != Started ==> acq.newSplits != [])
    && (m.state == Started ==> acq.next == Started)
  }

  lemma BatchAcquisitionSound(dist: Metric, m: Machine, locations: seq<Location>, now: real)
    requires Inv(m) && m.workoutBuilder.Some?
    ensures AcquisitionSound(m, BatchAcquisition(dist, m, locations, now), locations)
  {
    if m.state.IsWaiting() {
      AcquireOutcome(dist, m.state, now, Acquisition(m.lastLocation, [], m.state, []), locations);
    }
  }

  /** Every point sent to the route builder by the effects `es` is a sample
      of `locations` whose accuracy passes the gate. */
  ghost predicate RoutePointsAccurate(es: seq<Effect>, locations: seq<Location>)
  {
    forall e :: e in es && e.InsertRouteData? ==>
      forall x :: x in e.points ==> x in locations && x.accuracy <= AccuracyLimit
  }

  lemma BeginsSendNoRoute(b: Builder, now: real, k: nat, locations: seq<Location>)
    ensures RoutePointsAccurate(Begins(b, now, k), locations)
  {
  }

  /** The distance grew from `before` to `after` by the length of a path made
      only of samples of `locations` whose accuracy passes the gate. */
  ghost predicate GrewAlongAccuratePath(dist: Metric, before: real, after: real, locations: seq<Location>)
  {
    exists from: Option<Location>, path: seq<Location> ::
      && (forall i :: 0 <= i < |path| ==> path[i] in locations && path[i].accuracy <= AccuracyLimit)
      && after == before + PathLength(dist, from, path)
  }

  lemma UnchangedDistance(dist: Metric, d: real, locations: seq<Location>)
    ensures GrewAlongAccuratePath(dist, d, d, locations)
  {
    var none: seq<Location> := [];
    assert d == d + PathLength(dist, None, none);
  }

  /** How a batch that took `m` to `r` may have changed the distance and
      what it may have sent to the route builder. */
  ghost predicate DistanceFromAccurateSamples(dist: Metric, m: Machine, r: Machine, locations: seq<Location>)
  {
    && m.distance <= r.distance
    && (r.distance != m.distance ==> r.state == Started)
    && GrewAlongAccuratePath(dist, m.distance, r.distance, locations)
    && m.effects <= r.effects
    && RoutePointsAccurate(r.effects[|m.effects|..], locations)
  }

  lemma IdleBatchDistance(dist: Metric, m: Machine, acq: Acquisition, locations: seq<Location>, now: real)
    requires m.workoutBuilder.Some?
    requires acq.next != Started || m.routeBuilder.None?
    ensures DistanceFromAccurateSamples(dist, m, FinishBatch(dist, m, acq, now), locations)
  {
    var r := FinishBatch(dist, m, acq, now);
    var begins := Begins(m.workoutBuilder.value, now, |acq.newSplits|);
    UnchangedDistance(dist, m.distance, locations);
    BeginsSendNoRoute(m.workoutBuilder.value, now, |acq.newSplits|, locations);
    assert r.effects == m.effects + begins;
    assert r.effects[|m.effects|..] == begins;
  }

  /** The distance and effects of a batch that tracks. */
  lemma TrackingBatchFields(dist: Metric, m: Machine, acq: Acquisition, now: real)
    requires m.workoutBuilder.Some? && acq.next == Started && m.routeBuilder.Some?
    ensures var r := FinishBatch(dist, m, acq, now);
      var admitted := AccurateOnly(acq.remaining);
      && r.state == Started
      && r.distance == m.distance + PathLength(dist, acq.last, admitted)
      && r.effects == m.effects + (Begins(m.workoutBuilder.value, now, |acq.newSplits|)
                                   + [InsertRouteData(m.routeBuilder.value, admitted)])
  {
    var admitted := AccurateOnly(acq.remaining);
    var t0 := Tally(m.distance, acq.last, m.peakSpeedBuffer, m.peakSpeed, m.currentSpeed, acq.newSplits);
    AccumulateDistance(dist, |m.splits|, t0, admitted);
  }

  lemma DistanceFacts(dist: Metric, m: Machine, r: Machine, locations: seq<Location>,
                      from: Option<Location>, path: seq<Location>, added: seq<Effect>)
    requires r.state == Started
    requires forall i :: 0 <= i < |path| ==> path[i] in locations && path[i].accuracy <= AccuracyLimit
    requires r.distance == m.distance + PathLength(dist, from, path)
    requires r.effects == m.effects + added && RoutePointsAccurate(added, locations)
    ensures DistanceFromAccurateSamples(dist, m, r, locations)
  {
    assert r.effects[|m.effects|..] == added;
  }

  lemma TrackingBatchDistance(dist: Metric, m: Machine, acq: Acquisition, locations: seq<Location>, now: real)
    requires m.workoutBuilder.Some? && AcquisitionSound(m, acq, locations)
    requires acq.next == Started && m.routeBuilder.Some?
    ensures DistanceFromAccurateSamples(dist, m, FinishBatch(dist, m, acq, now), locations)
  {
    var admitted := AccurateOnly(acq.remaining);
    var begins := Begins(m.workoutBuilder.value, now, |acq.newSplits|);
    TrackingBatchFields(dist, m, acq, now);
    BeginsSendNoRoute(m.workoutBuilder.value, now, |acq.newSplits|, locations);
    var added := begins + [InsertRouteData(m.routeBuilder.value, admitted)];
    assert RoutePointsAccurate(added, locations);
    DistanceFacts(dist, m, FinishBatch(dist, m, acq, now), locations, acq.last, admitted, added);
  }

  /** Distance changes only in a batch that leaves the machine `Started`; it
      grows by the length of a path made only of samples of the batch whose
      accuracy passes the gate, and every point sent to the route builder
      passes the gate too. */
  lemma BatchDistance(dist: Metric, m: Machine, locations: seq<Location>, now: real)
    requires Inv(m)
    ensures DistanceFromAccurateSamples(dist, m, ProcessBatch(dist, m, locations, now), locations)
  {
    if m.workoutBuilder.None? {
      var none: seq<Location> := [];
      assert m.distance == m.distance + PathLength(dist, None, none);
      assert m.effects[|m.effects|..] == [];
    } else {
      var acq := BatchAcquisition(dist, m, locations, now);
      BatchAcquisitionSound(dist, m, locations, now);
      if acq.next != Started || m.routeBuilder.None? {
        IdleBatchDistance(dist, m, acq, locations, now);
      } else {
        TrackingBatchDistance(dist, m, acq, locations, now);
      }
    }
  }

  /** What a batch keeps: the invariant, the splits on record, a peak speed
      that never decreases, and a state that moves only as the acquisition
      filter allows. */
  ghost predicate BatchKeeps(m: Machine, r: Machine)
  {
    && Inv(r)
    && m.splits <= r.splits
    && m.peakSpeed <= r.peakSpeed
    && (r.state == m.state || r.state == Started || (m.state == WaitingForGPSToStart && r.state == WaitingForGPSAccuracy))
    && (m.state == Started ==> r.state == Started)
  }

  /** A batch that leaves the machine short of `Started`. */
  lemma IdleBatchInv(dist: Metric, m: Machine, acq: Acquisition, locations: seq<Location>, now: real)
    requires Inv(m) && m.workoutBuilder.Some? && AcquisitionSound(m, acq, locations) && acq.next != Started
    ensures BatchKeeps(m, FinishBatch(dist, m, acq, now))
  {
    var r := FinishBatch(dist, m, acq, now);
    assert SplitsOrdered(acq.newSplits, m.distance);
    AppendOrdered(m.splits, acq.newSplits, m.distance, m.distance);
    assert SplitsOrdered(r.splits, r.distance);
  }

  /** A batch that starts or continues tracking without a route builder
      returns before publishing: the state and the splits stay as they were
      (even when a sample locked), no distance is added and no route data is
      sent; only the reference location and the `beginCollection` calls of
      the acquisition filter remain. */
  lemma UnroutedBatchInv(dist: Metric, m: Machine, acq: Acquisition, locations: seq<Location>, now: real)
    requires Inv(m) && m.workoutBuilder.Some? && AcquisitionSound(m, acq, locations)
    requires acq.next == Started && m.routeBuilder.None?
    ensures var r := FinishBatch(dist, m, acq, now);
      && BatchKeeps(m, r)
      && r.state == m.state && r.splits == m.splits && r.distance == m.distance
      && r.peakSpeed == m.peakSpeed && r.peakSpeedBuffer == m.peakSpeedBuffer
      && r.lastLocation == acq.last
      && r.effects == m.effects + Begins(m.workoutBuilder.value, now, |acq.newSplits|)
  {
  }

  /** A tracking batch: the tally keeps the buffer bounded, the speeds
      ordered and the splits ordered by distance. */
  lemma TrackingBatchInv(dist: Metric, m: Machine, acq: Acquisition, locations: seq<Location>, now: real)
    requires Inv(m) && m.workoutBuilder.Some? && AcquisitionSound(m, acq, locations)
    requires acq.next == Started && m.routeBuilder.Some?
    ensures BatchKeeps(m, FinishBatch(dist, m, acq, now))
  {
    var r := FinishBatch(dist, m, acq, now);
    assert SplitsOrdered(acq.newSplits, m.distance);
    var admitted := AccurateOnly(acq.remaining);
    var t0 := Tally(m.distance, acq.last, m.peakSpeedBuffer, m.peakSpeed, m.currentSpeed, acq.newSplits);
    var t := Accumulate(dist, |m.splits|, t0, admitted);
    AccumulateBuffer(dist, |m.splits|, t0, admitted);
    AccumulateSpeeds(dist, |m.splits|, t0, admitted);
    AccumulateSplits(dist, |m.splits|, t0, admitted);
    forall j | 0 <= j < |t.newSplits| ensures m.distance <= t.newSplits[j].distance {
      if j < |acq.newSplits| {
        assert t.newSplits[j] == acq.newSplits[j];
      }
    }
    AppendOrdered(m.splits, t.newSplits, m.distance, t.distance);
    assert SplitsOrdered(r.splits, r.distance);
  }

  lemma FinishBatchInv(dist: Metric, m: Machine, acq: Acquisition, locations: seq<Location>, now: real)
    requires Inv(m) && m.workoutBuilder.Some? && AcquisitionSound(m, acq, locations)
    ensures BatchKeeps(m, FinishBatch(dist, m, acq, now))
  {
    if acq.next != Started {
      IdleBatchInv(dist, m, acq, locations, now);
    } else if m.routeBuilder.None? {
      UnroutedBatchInv(dist, m, acq, locations, now);
    } else {
      TrackingBatchInv(dist, m, acq, locations, now);
    }
  }

  /** A batch keeps every invariant: the buffer holds at most five samples,
      the peak speed stays at least the current speed and never decreases,
      splits are only appended and stay ordered by distance, and the state
      moves only to the state the batch computed. */
  lemma BatchPreservesInv(dist: Metric, m: Machine, locations: seq<Location>, now: real)
    requires Inv(m)
    ensures var r := ProcessBatch(dist, m, locations, now);
      && Inv(r)
      && m.splits <= r.splits
      && m.peakSpeed <= r.peakSpeed
      && (r.state == m.state || r.state == Started || (m.state == WaitingForGPSToStart && r.state == WaitingForGPSAccuracy))
      && (m.state == Started ==> r.state == Started)
  {
    if m.workoutBuilder.Some? {
      BatchAcquisitionSound(dist, m, locations, now);
      FinishBatchInv(dist, m, BatchAcquisition(dist, m, locations, now), locations, now);
    }
  }

  /** As written, a batch that crosses the next split threshold with a
      single sample publishes no split: here the distance passes 100 m while
      one split is on record, yet the splits are unchanged. */
  lemma SingleCrossingNotPublished(ref: Location, loc: Location, b: Builder, rb: Builder)
    requires loc.accuracy <= AccuracyLimit
    ensures
      var dist: Metric := (x: Location, y: Location) => 60.0;
      var m := Initial().(state := Started, splits := [WorkoutSplit(0.0, 0.0)], distance := 50.0,
                          lastLocation := Some(ref), workoutBuilder := Some(b), routeBuilder := Some(rb),
                          hasLocationManager := true, collectionStart := Some(0.0));
      var r := ProcessBatch(dist, m, [loc], 1.0);
      r.distance == 110.0 && r.distance > SplitDistance * |m.splits| as real && r.splits == m.splits
  {
    var dist: Metric := (x: Location, y: Location) => 60.0;
    var t0 := Tally(50.0, Some(ref), [], 0.0, 0.0, []);
    assert AccurateOnly([loc]) == [loc];
    var t1 := AccumulateStep(dist, 1, t0, loc);
    assert t1.distance == 110.0 && |t1.newSplits| == 1;
    assert Accumulate(dist, 1, t0, [loc]) == Accumulate(dist, 1, t1, []);
  }

  /** Once tracking, the distance cannot pass the threshold without the
      batch creating a split. */
  lemma {:induction false} CrossingCreatesSplit(dist: Metric, base: nat, t: Tally, locs: seq<Location>)
    ensures var r := Accumulate(dist, base, t, locs);
      r.distance > t.distance && r.distance > SplitDistance * base as real ==> |r.newSplits| > |t.newSplits|
    decreases |locs|
  {
    if locs != [] {
      var s := AccumulateStep(dist, base, t, locs[0]);
      CrossingCreatesSplit(dist, base, s, locs[1..]);
      AccumulateSplits(dist, base, s.(newSplits := []), locs[1..]);
      AccumulateNewSplitsIndependent(dist, base, s, locs[1..]);
    }
  }

  /** The distance a batch reaches and the count of splits it adds do not
      depend on the splits it started with. */
  lemma {:induction false} AccumulateNewSplitsIndependent(dist: Metric, base: nat, t: Tally, locs: seq<Location>)
    ensures var r := Accumulate(dist, base, t, locs);
      var r0 := Accumulate(dist, base, t.(newSplits := []), locs);
      r.distance == r0.distance && r.newSplits == t.newSplits + r0.newSplits
    decreases |locs|
  {
    if locs != [] {
      var s := AccumulateStep(dist, base, t, locs[0]);
      var s0 := AccumulateStep(dist, base, t.(newSplits := []), locs[0]);
      assert s0 == s.(newSplits := s.newSplits[|t.newSplits|..]);
      AccumulateNewSplitsIndependent(dist, base, s, locs[1..]);
      AccumulateNewSplitsIndependent(dist, base, s0, locs[1..]);
      assert s0.(newSplits := []) == s.(newSplits := []);
    }
  }

  /** With every new split published, a batch that moves the distance past
      the next threshold always adds a split. */
  lemma IntendedPublishReportsCrossing(dist: Metric, splits: seq<WorkoutSplit>, t: Tally, locs: seq<Location>)
    ensures var r := Accumulate(dist, |splits|, t, locs);
      r.distance > t.distance && r.distance > SplitDistance * |splits| as real ==>
        |IntendedPublishedSplits(splits, r.newSplits)| > |splits|
  {
    CrossingCreatesSplit(dist, |splits|, t, locs);
  }

  // ------------------------------------------------------ stop and finish

  /** The builder's start date is needed when stopping a tracked workout
      (`stop` force-unwraps it), and the clock must have moved past it for the
      average speed to be a number. */
  predicate StopReady(m: Machine, now: real)
  {
    m.workoutBuilder.Some? && !m.state.IsWaiting() ==> m.collectionStart.Some? && m.collectionStart.value < now
  }

  /** `stop`: location updates are stopped and the subscription is
      cancelled. With no workout builder nothing else happens. While still
      waiting for GPS the builders are dropped and the machine is `Stopped`
      without any sink call. Otherwise one final split is appended and the
      finalisation chain starts with `addMetadata`; the state does not change
      until the chain's completions run. */
  function StopWorkout(m: Machine, now: real): (r: Machine)
    requires StopReady(m, now)
  {
    var m0 := m.(subscribed := false,
                 effects := m.effects + (if m.hasLocationManager then [StopUpdatingLocation] else []));
    if m.workoutBuilder.None? then m0
    else if m.state.IsWaiting() then m0.(workoutBuilder := None, routeBuilder := None, state := Stopped)
    else
      var b := m.workoutBuilder.value;
      var start := m.collectionStart.value;
      m0.(splits := m.splits + [WorkoutSplit(now, m.distance)],
          effects := m0.effects + [AddMetadata(b, m.peakSpeed, m.distance / (now - start))],
          pending := m.pending + [AwaitMetadata(b, DistanceSample(m.distance, start, now))])
  }

  /** Every failure in the finalisation chain drops both builders and leaves
      the machine `Failed`. */
  function Fail(m: Machine): Machine
  {
    m.(workoutBuilder := None, routeBuilder := None, state := Failed)
  }

  /** The `beginCollection` completion for outstanding call `i`: an error
      stops location updates, drops the workout builder (the route builder
      is kept) and fails the machine; success changes nothing else. */
  function BeginCompleted(m: Machine, i: nat, error: Option<SinkError>): (r: Machine)
    requires i < |m.pending| && m.pending[i] == AwaitBegin
  {
    var m0 := m.(pending := RemoveAt(m.pending, i));
    if error.Some? then m0.(effects := m.effects + [StopUpdatingLocation], workoutBuilder := None, state := Failed)
    else m0
  }

  /** The `addMetadata` completion: whatever the outcome (it is only logged),
      the distance sample is added next. */
  function MetadataAdded(m: Machine, i: nat): (r: Machine)
    requires i < |m.pending| && m.pending[i].AwaitMetadata?
  {
    var p := m.pending[i];
    m.(effects := m.effects + [AddSamples(p.builder, p.sample)],
       pending := RemoveAt(m.pending, i) + [AwaitSamples(p.builder, p.sample.end)])
  }

  /** The `add` completion: whatever the outcome, collection is ended at the
      stop time. */
  function SamplesAdded(m: Machine, i: nat): (r: Machine)
    requires i < |m.pending| && m.pending[i].AwaitSamples?
  {
    var p := m.pending[i];
    m.(effects := m.effects + [EndCollection(p.builder, p.end)],
       pending := RemoveAt(m.pending, i) + [AwaitEnd(p.builder)])
  }

  /** The `endCollection` completion: an error or an unsuccessful outcome
      fails the machine; otherwise the workout is finished. */
  function CollectionEnded(m: Machine, i: nat, outcome: SinkOutcome): (r: Machine)
    requires i < |m.pending| && m.pending[i].AwaitEnd?
  {
    var p := m.pending[i];
    if outcome.error.Some? || !outcome.success then Fail(m.(pending := RemoveAt(m.pending, i)))
    else m.(effects := m.effects + [FinishWorkout(p.builder)], pending := RemoveAt(m.pending, i) + [AwaitFinish(p.builder)])
  }

  /** The `finishWorkout` completion: an error or a missing workout fails the
      machine; otherwise the workout builder is dropped and, when there is a
      route builder, the route is finished against the saved workout. */
  function WorkoutFinished(m: Machine, i: nat, workout: Option<WorkoutHandle>, error: Option<SinkError>): (r: Machine)
    requires i < |m.pending| && m.pending[i].AwaitFinish?
  {
    var m0 := m.(pending := RemoveAt(m.pending, i));
    if error.Some? || workout.None? then Fail(m0)
    else if m.routeBuilder.None? then m0.(workoutBuilder := None)
    else
      var rb := m.routeBuilder.value;
      m0.(workoutBuilder := None, effects := m.effects + [FinishRoute(rb, workout.value)],
          pending := m0.pending + [AwaitRoute(rb)])
  }

  /** The `finishRoute` completion: whatever the outcome, the route builder
      is dropped and the machine is `Stopped`. */
  function RouteFinished(m: Machine, i: nat): (r: Machine)
    requires i < |m.pending| && m.pending[i].AwaitRoute?
  {
    m.(pending := RemoveAt(m.pending, i), routeBuilder := None, state := Stopped)
  }

  /** Stopping keeps the invariant. It always unsubscribes and stops the
      location source when there is one. Without a workout builder nothing
      else changes; while waiting the machine is `Stopped` with both builders
      dropped and no sink call; otherwise the state is kept, one final split
      records the distance at the stop time, and `addMetadata` receives the
      peak speed and the average speed over the collection. */
  lemma StopOutcome(m: Machine, now: real)
    requires Inv(m) && StopReady(m, now)
    ensures var r := StopWorkout(m, now);
      var stopCall := if m.hasLocationManager then [StopUpdatingLocation] else [];
      && Inv(r)
      && !r.subscribed
      && (m.workoutBuilder.None? ==> r == m.(subscribed := false, effects := m.effects + stopCall))
      && (m.workoutBuilder.Some? && m.state.IsWaiting() ==>
            && r.state == Stopped && r.workoutBuilder.None? && r.routeBuilder.None?
            && r.effects == m.effects + stopCall && r.pending == m.pending && r.splits == m.splits)
      && (m.workoutBuilder.Some? && !m.state.IsWaiting() ==>
            && r.state == m.state && r.workoutBuilder == m.workoutBuilder
            && r.splits == m.splits + [WorkoutSplit(now, m.distance)]
            && |r.effects| == |m.effects| + |stopCall| + 1
            && (var e := r.effects[|r.effects| - 1];
                && e.AddMetadata? && e.builder == m.workoutBuilder.value && e.peakSpeed == m.peakSpeed
                && e.averageSpeed * (now - m.collectionStart.value) == m.distance)
            && r.pending == m.pending + [AwaitMetadata(m.workoutBuilder.value,
                                          DistanceSample(m.distance, m.collectionStart.value, now))])
  {
    var r := StopWorkout(m, now);
    if m.workoutBuilder.Some? && !m.state.IsWaiting() {
      var start := m.collectionStart.value;
      assert (m.distance / (now - start)) * (now - start) == m.distance;
      assert SplitsOrdered(r.splits, r.distance);
    }
  }

  /** A failed `beginCollection` stops location updates and fails the
      machine, dropping only the workout builder; a successful one changes
      nothing but the outstanding calls. */
  lemma BeginCompletedOutcome(m: Machine, i: nat, error: Option<SinkError>)
    requires Inv(m) && i < |m.pending| && m.pending[i] == AwaitBegin
    ensures var r := BeginCompleted(m, i, error);
      && Inv(r)
      && r.pending == RemoveAt(m.pending, i)
      && (error.Some? ==> r.state == Failed && r.workoutBuilder.None? && r.routeBuilder == m.routeBuilder
                          && r.effects == m.effects + [StopUpdatingLocation] && r.hasLocationManager)
      && (error.None? ==> r == m.(pending := RemoveAt(m.pending, i)))
  {
    assert m.state != Before;
  }

  lemma MetadataAddedInv(m: Machine, i: nat)
    requires Inv(m) && i < |m.pending| && m.pending[i].AwaitMetadata?
    ensures Inv(MetadataAdded(m, i))
  {
  }

  lemma SamplesAddedInv(m: Machine, i: nat)
    requires Inv(m) && i < |m.pending| && m.pending[i].AwaitSamples?
    ensures Inv(SamplesAdded(m, i))
  {
  }

  lemma CollectionEndedInv(m: Machine, i: nat, outcome: SinkOutcome)
    requires Inv(m) && i < |m.pending| && m.pending[i].AwaitEnd?
    ensures Inv(CollectionEnded(m, i, outcome))
  {
    assert m.state != Before;
  }

  /** A finished workout drops the workout builder and, exactly when there
      is a route builder, asks it to finish the route against the saved
      workout. */
  lemma WorkoutFinishedOutcome(m: Machine, i: nat, workout: Option<WorkoutHandle>, error: Option<SinkError>)
    requires Inv(m) && i < |m.pending| && m.pending[i].AwaitFinish?
    ensures var r := WorkoutFinished(m, i, workout, error);
      && Inv(r)
      && r.workoutBuilder.None?
      && (error.None? && workout.Some? ==>
            && r.state == m.state && r.routeBuilder == m.routeBuilder
            && (m.routeBuilder.Some? ==> r.effects == m.effects + [FinishRoute(m.routeBuilder.value, workout.value)]
                                         && r.pending == RemoveAt(m.pending, i) + [AwaitRoute(m.routeBuilder.value)])
            && (m.routeBuilder.None? ==> r.effects == m.effects && r.pending == RemoveAt(m.pending, i)))
  {
    assert m.state != Before;
  }

  /** The route completion stops the machine whatever state it was in. */
  lemma RouteFinishedOutcome(m: Machine, i: nat)
    requires Inv(m) && i < |m.pending| && m.pending[i].AwaitRoute?
    ensures var r := RouteFinished(m, i);
      Inv(r) && r.state == Stopped && r.workoutBuilder.None? && r.routeBuilder.None? && r.effects == m.effects
  {
  }

  /** The whole finalisation chain, every step succeeding, from a tracked
      workout with nothing outstanding: the machine ends `Stopped` with both
      builders dropped and nothing outstanding, after calling the sink in
      exactly this order. */
  lemma SuccessfulStopChain(m: Machine, now: real, w: WorkoutHandle)
    requires Inv(m) && m.state == Started && m.workoutBuilder.Some? && m.routeBuilder.Some?
    requires m.pending == [] && StopReady(m, now)
    ensures
      var b := m.workoutBuilder.value;
      var rb := m.routeBuilder.value;
      var start := m.collectionStart.value;
      var sample := DistanceSample(m.distance, start, now);
      var r1 := StopWorkout(m, now);
      var r2 := MetadataAdded(r1, 0);
      var r3 := SamplesAdded(r2, 0);
      var r4 := CollectionEnded(r3, 0, SinkOutcome(true, None));
      var r5 := WorkoutFinished(r4, 0, Some(w), None);
      var r6 := RouteFinished(r5, 0);
      && Inv(r6)
      && r6.state == Stopped && r6.workoutBuilder.None? && r6.routeBuilder.None? && r6.pending == []
      && r6.splits == m.splits + [WorkoutSplit(now, m.distance)]
      && r6.effects == m.effects + [StopUpdatingLocation,
                                    AddMetadata(b, m.peakSpeed, m.distance / (now - start)),
                                    AddSamples(b, sample), EndCollection(b, now), FinishWorkout(b),
                                    FinishRoute(rb, w)]
  {
    var b := m.workoutBuilder.value;
    var rb := m.routeBuilder.value;
    var sample := DistanceSample(m.distance, m.collectionStart.value, now);
    var e1 := m.effects + [StopUpdatingLocation, AddMetadata(b, m.peakSpeed, m.distance / (now - m.collectionStart.value))];
    var r1 := StopWorkout(m, now);
    StopOutcome(m, now);
    assert r1.pending == [AwaitMetadata(b, sample)] && r1.effects == e1;
    var r2 := MetadataAdded(r1, 0);
    MetadataAddedInv(r1, 0);
    assert r2.pending == [AwaitSamples(b, now)] && r2.effects == e1 + [AddSamples(b, sample)];
    var r3 := SamplesAdded(r2, 0);
    SamplesAddedInv(r2, 0);
    assert r3.pending == [AwaitEnd(b)];
    var r4 := CollectionEnded(r3, 0, SinkOutcome(true, None));
    CollectionEndedInv(r3, 0, SinkOutcome(true, None));
    assert r4.pending == [AwaitFinish(b)];
    var r5 := WorkoutFinished(r4, 0, Some(w), None);
    WorkoutFinishedOutcome(r4, 0, Some(w), None);
    assert r5.pending == [AwaitRoute(rb)];
    RouteFinishedOutcome(r5, 0);
  }

  /** Any failure reported by `endCollection` or `finishWorkout` leaves the
      machine `Failed` with both builders dropped and makes no further sink
      call. */
  lemma ChainFailureFails(m: Machine, i: nat, outcome: SinkOutcome,
                          workout: Option<WorkoutHandle>, error: Option<SinkError>)
    requires i < |m.pending|
    ensures m.pending[i].AwaitEnd? && (outcome.error.Some? || !outcome.success) ==>
      var r := CollectionEnded(m, i, outcome);
      r.state == Failed && r.workoutBuilder.None? && r.routeBuilder.None? && r.effects == m.effects
    ensures m.pending[i].AwaitFinish? && (error.Some? || workout.None?) ==>
      var r := WorkoutFinished(m, i, workout, error);
      r.state == Failed && r.workoutBuilder.None? && r.routeBuilder.None? && r.effects == m.effects
  {
  }

  /** `stop` is not idempotent: stopping a tracked workout again before the
      chain has dropped the workout builder appends a second final split and
      starts a second chain. */
  lemma StopTwiceDuplicatesChain(m: Machine, now: real, later: real)
    requires Inv(m) && m.state == Started && m.workoutBuilder.Some? && StopReady(m, now) && now <= later
    ensures var r := StopWorkout(StopWorkout(m, now), later);
      var b := m.workoutBuilder.value;
      var start := m.collectionStart.value;
      && r.splits == m.splits + [WorkoutSplit(now, m.distance), WorkoutSplit(later, m.distance)]
      && r.pending == m.pending + [AwaitMetadata(b, DistanceSample(m.distance, start, now)),
                                   AwaitMetadata(b, DistanceSample(m.distance, start, later))]
  {
    StopOutcome(m, now);
    StopOutcome(StopWorkout(m, now), later);
  }

  /** A finalisation chain is under way: one of its completions is still
      outstanding. */
  predicate Finalising(m: Machine)
  {
    exists p :: p in m.pending && !p.AwaitBegin?
  }

  /** What stopping is meant to do: while the chain of an earlier stop is
      under way, a stop only stops the location source and unsubscribes
      again; otherwise it is `stop` as written. */
  function IntendedStopWorkout(m: Machine, now: real): Machine
    requires StopReady(m, now)
  {
    if Finalising(m)
    then m.(subscribed := false, effects := m.effects + (if m.hasLocationManager then [StopUpdatingLocation] else []))
    else StopWorkout(m, now)
  }

  /** With the corrected stop a second stop is a no-op apart from stopping
      the location source again: no second final split, no second chain,
      no change of state or builders. A first stop with no chain under way
      is `stop` as written. */
  lemma IntendedStopIdempotent(m: Machine, now: real, later: real)
    requires Inv(m) && StopReady(m, now) && now <= later
    ensures var r1 := IntendedStopWorkout(m, now);
      && (!Finalising(m) ==> r1 == StopWorkout(m, now))
      && StopReady(r1, later)
      && IntendedStopWorkout(r1, later)
           == r1.(effects := r1.effects + (if m.hasLocationManager then [StopUpdatingLocation] else []))
  {
    var r1 := IntendedStopWorkout(m, now);
    if !Finalising(m) && m.workoutBuilder.Some? && !m.state.IsWaiting() {
      var p := AwaitMetadata(m.workoutBuilder.value, DistanceSample(m.distance, m.collectionStart.value, now));
      assert r1.pending == m.pending + [p];
      assert p in r1.pending;
    }
  }

  // ------------------------------------------------------------ the loops

  /** The waiting-state loop of `processLocationUpdate`, run over one batch
      from the reference location `last`. */
  method AcquireLoop(dist: Metric, entry: WorkoutState, last: Option<Location>, locations: seq<Location>, now: real)
    returns (acq: Acquisition)
    ensures acq == Acquire(dist, entry, now, Acquisition(last, [], entry, []), locations)
  {
    var lastLocation := last;
    var nextState := entry;
    var newSplits: seq<WorkoutSplit> := [];
    var remaining: seq<Location> := [];
    var i := 0;
    while i < |locations|
      invariant 0 <= i <= |locations|
      invariant Acquire(dist, entry, now, Acquisition(last, [], entry, []), locations)
             == Acquire(dist, entry, now, Acquisition(lastLocation, remaining, nextState, newSplits), locations[i..])
    {
      var location := locations[i];
      assert locations[i..][1..] == locations[i + 1..];
      if lastLocation.None? {
        lastLocation := Some(location);
      } else if dist(location, lastLocation.value) > JumpLimit {
        lastLocation := Some(location);
      } else if IsLockAccuracy(location.accuracy) {
        nextState := Started;
        newSplits := newSplits + [WorkoutSplit(now, 0.0)];
        remaining := remaining + [location];
      } else if entry == WaitingForGPSToStart {
        nextState := WaitingForGPSAccuracy;
      }
      i := i + 1;
    }
    acq := Acquisition(lastLocation, remaining, nextState, newSplits);
  }

  /** The tracking loop of `processLocationUpdate` over the admitted
      samples; `base` is the split count the threshold uses. */
  method TrackLoop(dist: Metric, base: nat, start: Tally, admitted: seq<Location>) returns (t: Tally)
    ensures t == Accumulate(dist, base, start, admitted)
  {
    var distance, lastLocation, peakSpeedBuffer := start.distance, start.last, start.buffer;
    var peakSpeed, currentSpeed, newSplits := start.peakSpeed, start.currentSpeed, start.newSplits;
    var i := 0;
    while i < |admitted|
      invariant 0 <= i <= |admitted|
      invariant Accumulate(dist, base, start, admitted)
             == Accumulate(dist, base, Tally(distance, lastLocation, peakSpeedBuffer, peakSpeed, currentSpeed, newSplits), admitted[i..])
    {
      var location := admitted[i];
      ghost var before := Tally(distance, lastLocation, peakSpeedBuffer, peakSpeed, currentSpeed, newSplits);
      assert admitted[i..][1..] == admitted[i + 1..];
      if lastLocation.Some? {
        distance := distance + dist(location, lastLocation.value);
        if distance > SplitDistance * base as real {
          newSplits := newSplits + [WorkoutSplit(location.timestamp, distance)];
        }
      }
      lastLocation := Some(location);
      if |peakSpeedBuffer| >= PeakSpeedBufferSize {
        peakSpeedBuffer := peakSpeedBuffer[1..];
      }
      peakSpeedBuffer := peakSpeedBuffer + [location];
      if |peakSpeedBuffer| == PeakSpeedBufferSize {
        var possible := CheckWindow(dist, peakSpeedBuffer);
        var duration := location.timestamp - peakSpeedBuffer[0].timestamp;
        if possible && duration > 0.0 {
          currentSpeed := dist(location, peakSpeedBuffer[0]) / duration;
          if currentSpeed > peakSpeed {
            peakSpeed := currentSpeed;
          }
        }
      }
      assert Tally(distance, lastLocation, peakSpeedBuffer, peakSpeed, currentSpeed, newSplits)
          == AccumulateStep(dist, base, before, location);
      i := i + 1;
    }
    t := Tally(distance, lastLocation, peakSpeedBuffer, peakSpeed, currentSpeed, newSplits);
  }

  // ------------------------------------------------------------ the object

  /** The state machine object. Each public method is one step on the
      serial queue and is proved to do to `Snap()` exactly what the function
      of the same step does to a `Machine`. The private helpers each update a
      few fields, so that every step is proved as a short chain of small
      updates. */
  class WorkoutStateMachine {
    var currentState: WorkoutState
    var activityType: ActivityType
    var splits: seq<WorkoutSplit>
    var workoutBuilder: Option<Builder>
    var routeBuilder: Option<Builder>
    var peakSpeedBuffer: seq<Location>
    var peakSpeed: real
    var currentSpeed: real
    var lastLocation: Option<Location>
    var distance: real
    var hasLocationManager: bool
    var subscribed: bool
    var collectionStart: Option<real>
    var effects: seq<Effect>
    var pending: seq<Pending>

    function Snap(): Machine
      reads this
    {
      Machine(currentState, activityType, splits, workoutBuilder, routeBuilder, peakSpeedBuffer, peakSpeed,
              currentSpeed, lastLocation, distance, hasLocationManager, subscribed, collectionStart, effects, pending)
    }

    ghost predicate Valid()
      reads this
    {
      Inv(Snap())
    }

    constructor ()
      ensures Snap() == Initial() && Valid()
    {
      currentState, activityType, splits := Before, Walking, [];
      workoutBuilder, routeBuilder := None, None;
      peakSpeedBuffer, peakSpeed, currentSpeed := [], 0.0, 0.0;
      lastLocation, distance := None, 0.0;
      hasLocationManager, subscribed, collectionStart := false, false, None;
      effects, pending := [], [];
      InitialInv();
    }

    // -------------------------------------------------------- small updates

    /** A call on a collaborator. */
    method Record(e: Effect)
      modifies this
      ensures Snap() == old(Snap()).(effects := old(effects) + [e])
    {
      effects := effects + [e];
    }

    /** A sink call whose completion is now outstanding. */
    method Await(p: Pending)
      modifies this
      ensures Snap() == old(Snap()).(pending := old(pending) + [p])
    {
      pending := pending + [p];
    }

    /** Outstanding call `i` has completed. */
    method Resolve(i: nat)
      requires i < |pending|
      modifies this
      ensures Snap() == old(Snap()).(pending := RemoveAt(old(pending), i))
    {
      pending := RemoveAt(pending, i);
    }

    /** Both builders are dropped and the machine settles in state `s`. */
    method Abandon(s: WorkoutState)
      modifies this
      ensures Snap() == old(Snap()).(workoutBuilder := None, routeBuilder := None, state := s)
    {
      workoutBuilder := None;
      routeBuilder := None;
      currentState := s;
    }

    /** The state is published together with the batch's new splits. */
    method Publish(s: WorkoutState, newSplits: seq<WorkoutSplit>)
      modifies this
      ensures Snap() == old(Snap()).(state := s, splits := PublishedSplits(old(splits), newSplits))
    {
      currentState := s;
      if |newSplits| > 1 {
        splits := splits + newSplits;
      }
    }

    // ---------------------------------------------------------------- start

    /** The activity is recorded and distance and splits are reset. */
    method Reset(activity: ActivityType)
      modifies this
      ensures Snap() == old(Snap()).(activity := activity, hasLocationManager := true, distance := 0.0, splits := [])
    {
      activityType := activity;
      hasLocationManager := true;
      distance := 0.0;
      splits := [];
    }

    /** The builders handed out by the health manager are taken. */
    method TakeBuilders(workout: Builder, route: Builder)
      modifies this
      ensures Snap() == old(Snap()).(workoutBuilder := Some(workout), routeBuilder := Some(route),
                                     state := WaitingForGPSToStart)
    {
      workoutBuilder := Some(workout);
      routeBuilder := Some(route);
      currentState := WaitingForGPSToStart;
    }

    /** The location stream is subscribed to and started. */
    method Subscribe()
      modifies this
      ensures Snap() == old(Snap()).(subscribed := true, effects := old(effects) + [StartUpdatingLocation])
    {
      subscribed := true;
      Record(StartUpdatingLocation);
    }

    /** `start(activity:locationManager:healthManager:)`, given the builders
        the health manager hands out. */
    method Start(activity: ActivityType, workout: Builder, route: Builder)
      requires Valid() && currentState == Before
      modifies this
      ensures Valid() && Snap() == StartWorkout(old(Snap()), activity, workout, route)
    {
      StartOutcome(Snap(), activity, workout, route);
      Reset(activity);
      TakeBuilders(workout, route);
      Subscribe();
    }

    // ------------------------------------------------------ location batch

    /** The outcome of the waiting-state loop is stored: the reference
        location, and one `beginCollection` call per locked sample. */
    method CommitAcquisition(acq: Acquisition, now: real)
      requires workoutBuilder.Some?
      modifies this
      ensures Snap() == AfterAcquisition(old(Snap()), acq, now)
    {
      var locks := |acq.newSplits|;
      lastLocation := acq.last;
      effects := effects + Begins(workoutBuilder.value, now, locks);
      pending := pending + AwaitBegins(locks);
      if locks > 0 {
        collectionStart := Some(now);
      }
    }

    /** The outcome of the tracking loop is stored. */
    method CommitTally(t: Tally)
      modifies this
      ensures Snap() == old(Snap()).(distance := t.distance, lastLocation := t.last, peakSpeedBuffer := t.buffer,
                                     peakSpeed := t.peakSpeed, currentSpeed := t.currentSpeed)
    {
      distance := t.distance;
      lastLocation := t.last;
      peakSpeedBuffer := t.buffer;
      peakSpeed := t.peakSpeed;
      currentSpeed := t.currentSpeed;
    }

    /** `processLocationUpdate(locations:)`, with `now` the clock reading
        used for every `Date()` of the batch. */
    method ProcessLocationUpdate(dist: Metric, locations: seq<Location>, now: real)
      requires Valid()
      modifies this
      ensures Valid() && Snap() == ProcessBatch(dist, old(Snap()), locations, now)
    {
      ghost var m := Snap();
      BatchPreservesInv(dist, m, locations, now);
      if workoutBuilder.None? {
        return;
      }
      var acq: Acquisition;
      if currentState.IsWaiting() {
        acq := AcquireLoop(dist, currentState, lastLocation, locations, now);
        CommitAcquisition(acq, now);
      } else {
        acq := Acquisition(lastLocation, locations, currentState, []);
        assert Snap() == AfterAcquisition(m, acq, now);
      }
      var admitted := AccurateOnly(acq.remaining);
      if acq.next == Started {
        if routeBuilder.None? {
          return;
        }
        var t := TrackLoop(dist, |splits|, Tally(distance, lastLocation, peakSpeedBuffer, peakSpeed, currentSpeed, acq.newSplits),
                           admitted);
        CommitTally(t);
        Record(InsertRouteData(routeBuilder.value, admitted));
        Publish(Started, t.newSplits);
      } else {
        Publish(acq.next, acq.newSplits);
      }
    }

    // ----------------------------------------------------------------- stop

    /** Location updates are stopped, if there is a location source, and the
        subscription is cancelled. */
    method Unsubscribe()
      modifies this
      ensures Snap() == old(Snap()).(subscribed := false,
                                     effects := old(effects) + (if old(hasLocationManager) then [StopUpdatingLocation] else []))
    {
      if hasLocationManager {
        Record(StopUpdatingLocation);
      }
      subscribed := false;
    }

    /** `stop()`, with `now` the clock reading of `Date()`. */
    method Stop(now: real)
      requires Valid() && StopReady(Snap(), now)
      modifies this
      ensures Valid() && Snap() == StopWorkout(old(Snap()), now)
    {
      StopOutcome(Snap(), now);
      Unsubscribe();
      if workoutBuilder.None? {
        return;
      }
      if currentState.IsWaiting() {
        Abandon(Stopped);
        return;
      }
      var builder := workoutBuilder.value;
      var start := collectionStart.value;
      splits := splits + [WorkoutSplit(now, distance)];
      Record(AddMetadata(builder, peakSpeed, distance / (now - start)));
      Await(AwaitMetadata(builder, DistanceSample(distance, start, now)));
    }

    /** The completion of outstanding `beginCollection` call `i`. */
    method OnBeginCollection(i: nat, error: Option<SinkError>)
      requires Valid() && i < |pending| && pending[i] == AwaitBegin
      modifies this
      ensures Valid() && Snap() == BeginCompleted(old(Snap()), i, error)
    {
      BeginCompletedOutcome(Snap(), i, error);
      Resolve(i);
      if error.Some? {
        Record(StopUpdatingLocation);
        workoutBuilder := None;
        currentState := Failed;
      }
    }

    /** The completion of outstanding `addMetadata` call `i`. */
    method OnMetadataAdded(i: nat)
      requires Valid() && i < |pending| && pending[i].AwaitMetadata?
      modifies this
      ensures Valid() && Snap() == MetadataAdded(old(Snap()), i)
    {
      MetadataAddedInv(Snap(), i);
      var p := pending[i];
      Resolve(i);
      Record(AddSamples(p.builder, p.sample));
      Await(AwaitSamples(p.builder, p.sample.end));
    }

    /** The completion of outstanding `add` call `i`. */
    method OnSamplesAdded(i: nat)
      requires Valid() && i < |pending| && pending[i].AwaitSamples?
      modifies this
      ensures Valid() && Snap() == SamplesAdded(old(Snap()), i)
    {
      SamplesAddedInv(Snap(), i);
      var p := pending[i];
      Resolve(i);
      Record(EndCollection(p.builder, p.end));
      Await(AwaitEnd(p.builder));
    }

    /** The completion of outstanding `endCollection` call `i`. */
    method OnCollectionEnded(i: nat, outcome: SinkOutcome)
      requires Valid() && i < |pending| && pending[i].AwaitEnd?
      modifies this
      ensures Valid() && Snap() == CollectionEnded(old(Snap()), i, outcome)
    {
      CollectionEndedInv(Snap(), i, outcome);
      var p := pending[i];
      Resolve(i);
      if outcome.error.Some? || !outcome.success {
        Abandon(Failed);
        return;
      }
      Record(FinishWorkout(p.builder));
      Await(AwaitFinish(p.builder));
    }

    /** The completion of outstanding `finishWorkout` call `i`. */
    method OnWorkoutFinished(i: nat, workout: Option<WorkoutHandle>, error: Option<SinkError>)
      requires Valid() && i < |pending| && pending[i].AwaitFinish?
      modifies this
      ensures Valid() && Snap() == WorkoutFinished(old(Snap()), i, workout, error)
    {
      WorkoutFinishedOutcome(Snap(), i, workout, error);
      Resolve(i);
      if error.Some? || workout.None? {
        Abandon(Failed);
        return;
      }
      workoutBuilder := None;
      if routeBuilder.Some? {
        Record(FinishRoute(routeBuilder.value, workout.value));
        Await(AwaitRoute(routeBuilder.value));
      }
    }

    /** The completion of outstanding `finishRoute` call `i`. */
    method OnRouteFinished(i: nat)
      requires Valid() && i < |pending| && pending[i].AwaitRoute?
      modifies this
      ensures Valid() && Snap() == RouteFinished(old(Snap()), i)
    {
      RouteFinishedOutcome(Snap(), i);
      Resolve(i);
      routeBuilder := None;
      currentState := Stopped;
    }
  }
}
