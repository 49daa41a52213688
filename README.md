# BitFit workout tracking, modelled in Dafny

BitFit records outdoor workouts (walks, runs, rides, wheelchair pushes)
from the phone's GPS and saves them to HealthKit. This project models the
part of the app that turns a stream of GPS fixes into a workout. It has
three parts:

* **`WorkoutStateMachine`** (module `StateMachine`, `state_machine.dfy`).
  This is the current engine. It moves through `Before`,
  `WaitingForGPSToStart`, `WaitingForGPSAccuracy`, `Started`, `Stopped`
  and `Failed`. Each batch of fixes passes through two filters:
  * a GPS-acquisition filter: a jump of more than 10 m resets the
    reference, and a lock needs `Int(horizontalAccuracy)` in `0...10`;
  * an accuracy gate of 10 m.

  The machine then adds up distance, finds splits every 100 m and keeps a
  five-sample peak-speed window with a 10 m/s plausibility check. `stop()`
  runs the HealthKit finalisation chain: metadata, distance sample, end of
  collection, finish of the workout, finish of the route.
* **`WorkoutTracker`** (module `Tracker`, `tracker.dfy`). This is the older
  engine for the same job. It changes state inside the batch loop, adds a
  split as soon as a threshold is crossed, has no accuracy gate and
  computes speed per hop. It reports to a delegate and to the stop
  caller's completion, and `startWorkout` throws. The module also holds
  its distance-unit setting and the activity names.
* **Route annotations** (module `Route`, `route.dfy`). This is the body of
  `WorkoutInstance.getRouteForSample`. For each batch of a recorded route
  it builds, in order:
  * a start marker (first batch only);
  * a waypoint each time another whole mile or kilometre has been covered;
  * one point per location;
  * an end marker on the final batch.

  It then appends them to the instance's route points. The handler's
  running distance and last location carry over between batches.

Module `Workout` (`common.dfy`) holds what the parts share:
* the GPS fix;
* the non-negative distance function;
* Swift's `Int()` truncation;
* the lock and speed thresholds;
* the calls made to the location source and the HealthKit sink;
* the completions still outstanding.

**How the objects are modelled.** Each object is a Dafny `class` with the
source's fields. Each public method ensures `Valid()` and that the new
state `Snap()` equals a pure function of the old state:
* `StartWorkout`, `ProcessBatch`, `StopWorkout` and one function per
  completion in the state machine;
* `StartTracking`, `TrackerBatch`, `StopTracking` and so on in the tracker.

The lemmas about those functions carry the properties.

**How the loops are modelled.** The loops over a batch are `while` loops
that are proved equal to folds:
* `AcquireLoop` to `Acquire`, `TrackLoop` to `Accumulate` and `CheckWindow`
  to `WindowPlausible` (state machine);
* `ScanLoop` to `ScanAll` and `TrackLoop` to `TrackAll` (tracker);
* `TravelLoop` to `Travel` and `Marks` (route).

**How the environment is modelled.** Calls made to the outside are
recorded, in order, in a trace field (`effects` or `events`). Each
asynchronous completion becomes a method taking its outcome as a parameter.
The completions still outstanding sit in `pending`. They may run in any
order; a completion is picked by its index.

## Model

| member | source | states |
|---|---|---|
| StateMachine.InitialInv | BitFit/Model/Workout/WorkoutStateMachine.swift:98-112 | a fresh machine is `Before`, with no builders, nothing outstanding and the invariant (buffer of at most five, ordered splits, `currentSpeed <= peakSpeed`) holding |
| StateMachine.StartOutcome | BitFit/Model/Workout/WorkoutStateMachine.swift:123-173 | starting a `Before` machine leads to `WaitingForGPSToStart` with distance 0, no splits, both builders set, location updates started; last location, peak-speed buffer and peak speed are kept, not reset |
| StateMachine.WorkoutStateMachine.Start | BitFit/Model/Workout/WorkoutStateMachine.swift:123-173 | the method's new state is `StartWorkout` of the old one, and the invariant is kept |
| StateMachine.NoBuilderIgnoresBatch | BitFit/Model/Workout/WorkoutStateMachine.swift:306-308 | a batch that arrives with no workout builder changes nothing at all |
| StateMachine.AcquireLoop | BitFit/Model/Workout/WorkoutStateMachine.swift:314-371 | the waiting-state loop yields exactly the fold `Acquire` over the batch |
| StateMachine.AcquireSnoc | BitFit/Model/Workout/WorkoutStateMachine.swift:317-369 | filtering a batch with one more sample is filtering the batch, then that sample |
| StateMachine.JumpBecomesReference | BitFit/Model/Workout/WorkoutStateMachine.swift:319-329 | a sample with no reference, or more than 10 m from it, becomes the reference and is not admitted |
| StateMachine.CloseSampleClassified | BitFit/Model/Workout/WorkoutStateMachine.swift:331-368 | a close sample is admitted with a zero-distance split and moves the state to `Started` exactly when its truncated accuracy is in 0...10; otherwise it is dropped and `WaitingForGPSToStart` moves to `WaitingForGPSAccuracy`; the reference does not move |
| StateMachine.AcquireOutcome | BitFit/Model/Workout/WorkoutStateMachine.swift:314-371 | over a batch, only lock-accuracy samples of the batch are admitted, one zero-distance split each; from `WaitingForGPSAccuracy` the batch ends `Started` if and only if some sample locked |
| StateMachine.LaterPoorSampleUndoesLock | BitFit/Model/Workout/WorkoutStateMachine.swift:332-365 | the lock rule looks at the state on entry: a locking sample followed by a poor one leaves `nextState` at `WaitingForGPSAccuracy`, although a split was recorded and a sample admitted |
| StateMachine.BatchAcquisitionSound | BitFit/Model/Workout/WorkoutStateMachine.swift:310-371 | the acquisition step admits only samples of the batch, creates only zero-distance splits and only while waiting, and can reach only the entry state, `Started` or `WaitingForGPSAccuracy` |
| StateMachine.PushEvictsOldest | BitFit/Model/Workout/WorkoutStateMachine.swift:392-395 | pushing into the peak-speed buffer keeps at most five samples: the newest ones, oldest evicted first |
| StateMachine.PushAllKeepsNewest | BitFit/Model/Workout/WorkoutStateMachine.swift:381-395 | after a run of pushes the buffer holds the newest `min(5, n)` samples of old buffer plus batch, in order |
| StateMachine.AccumulateBuffer | BitFit/Model/Workout/WorkoutStateMachine.swift:381-395 | over a tracked batch the buffer ends as the newest `min(5, n)` samples of old buffer plus admitted samples |
| StateMachine.CheckWindow | BitFit/Model/Workout/WorkoutStateMachine.swift:396-411 | the window check answers true if and only if no consecutive hop in the buffer is faster than 10 m/s |
| StateMachine.Advance | BitFit/Model/Workout/WorkoutStateMachine.swift:382-385 | adding a sample never decreases the distance |
| StateMachine.TrackLoop | BitFit/Model/Workout/WorkoutStateMachine.swift:381-422 | the tracking loop yields exactly the fold `Accumulate` over the admitted samples |
| StateMachine.AccumulateDistance | BitFit/Model/Workout/WorkoutStateMachine.swift:381-391 | the distance grows by exactly the path length from the last location through the admitted samples, and the last location ends as the last sample |
| StateMachine.SpeedGate | BitFit/Model/Workout/WorkoutStateMachine.swift:392-420 | for one admitted sample, with `w` the buffer after the push: the speeds change only when `w` holds five samples and no hop in it is faster than 10 m/s, so one too-fast hop anywhere in the window leaves them unchanged; when the window is full, plausible and spans a positive duration, the current speed is the distance from the oldest sample over that duration and the peak rises to it if higher |
| StateMachine.AccumulateSpeeds | BitFit/Model/Workout/WorkoutStateMachine.swift:412-420 | the peak speed never decreases and stays at least the current speed |
| StateMachine.AccumulateSplits | BitFit/Model/Workout/WorkoutStateMachine.swift:386-388 | candidate splits are only appended, each lies beyond `100 * splits.count` (the count from before the batch), and they stay ordered by distance |
| StateMachine.BeginsSendNoRoute | BitFit/Model/Workout/WorkoutStateMachine.swift:340-356 | the `beginCollection` calls of a batch send no route points |
| StateMachine.IdleBatchDistance | BitFit/Model/Workout/WorkoutStateMachine.swift:376-379 | a batch that does not end tracking with a route builder leaves the distance as it was and sends no route data |
| StateMachine.TrackingBatchFields | BitFit/Model/Workout/WorkoutStateMachine.swift:373-431 | a tracked batch ends `Started`; the distance grows by the path through the accurate admitted samples; the calls made are the `beginCollection`s followed by `insertRouteData` of the gated samples |
| StateMachine.TrackingBatchDistance | BitFit/Model/Workout/WorkoutStateMachine.swift:373-431 | in a tracked batch only samples of the batch with accuracy at most 10 m add distance or reach the route builder |
| StateMachine.BatchDistance | BitFit/Model/Workout/WorkoutStateMachine.swift:302-440 | for any batch, the distance never decreases, changes only when the machine is `Started`, grows only by hops that end at gated samples of the batch, and no sample worse than 10 m is sent to `insertRouteData` |
| StateMachine.IdleBatchInv | BitFit/Model/Workout/WorkoutStateMachine.swift:433-440 | a batch that does not reach `Started` keeps the invariant and the recorded splits, and publishes only the computed state |
| StateMachine.UnroutedBatchInv | BitFit/Model/Workout/WorkoutStateMachine.swift:376-379 | a batch that reaches `Started` with no route builder returns before publishing: state, splits, distance, peak speed and buffer stay as they were (even when a sample locked), no route data is sent; only the moved reference and the `beginCollection` calls remain; the invariant is kept |
| StateMachine.TrackingBatchInv | BitFit/Model/Workout/WorkoutStateMachine.swift:373-440 | a tracked batch keeps the invariant, only appends splits and never lowers the peak speed |
| StateMachine.FinishBatchInv | BitFit/Model/Workout/WorkoutStateMachine.swift:373-440 | whatever the acquisition step decided, the rest of the batch keeps the invariant |
| StateMachine.BatchPreservesInv | BitFit/Model/Workout/WorkoutStateMachine.swift:302-440 | every batch keeps the invariant; splits are append-only; the peak speed never decreases; the state moves only to the computed `nextState`; a `Started` machine stays `Started` |
| StateMachine.WorkoutStateMachine.ProcessLocationUpdate | BitFit/Model/Workout/WorkoutStateMachine.swift:302-440 | the method's new state is `ProcessBatch` of the old state and the batch, and the invariant is kept |
| StateMachine.SingleCrossingNotPublished | BitFit/Model/Workout/WorkoutStateMachine.swift:437-439 | as written, a batch whose one sample carries the distance past the next split threshold leaves the published splits unchanged |
| StateMachine.CrossingCreatesSplit | BitFit/Model/Workout/WorkoutStateMachine.swift:386-388 | a tracked batch that moves the distance past `100 * splits.count` creates at least one candidate split |
| StateMachine.AccumulateNewSplitsIndependent | BitFit/Model/Workout/WorkoutStateMachine.swift:381-391 | the candidate splits a batch finds do not depend on those found before it in the batch |
| StateMachine.IntendedPublishReportsCrossing | BitFit/Model/Workout/WorkoutStateMachine.swift:437-439 | with every candidate split published, a batch that crosses a threshold always adds a split |
| StateMachine.StopOutcome | BitFit/Model/Workout/WorkoutStateMachine.swift:180-222 | stop always stops updates (when there is a location manager) and unsubscribes; with no builder nothing else changes; while waiting it drops both builders and goes to `Stopped` with no sink call; otherwise it appends one final split at the current distance and calls `addMetadata` with the peak speed and average speed `distance / duration` |
| StateMachine.WorkoutStateMachine.Stop | BitFit/Model/Workout/WorkoutStateMachine.swift:180-300 | the method's new state is `StopWorkout` of the old one, and the invariant is kept |
| StateMachine.BeginCompletedOutcome | BitFit/Model/Workout/WorkoutStateMachine.swift:341-357 | a `beginCollection` error stops updates, drops the workout builder only and fails the machine; success changes nothing but the outstanding calls |
| StateMachine.MetadataAddedInv | BitFit/Model/Workout/WorkoutStateMachine.swift:220-229 | the `addMetadata` completion keeps the invariant whatever its outcome |
| StateMachine.SamplesAddedInv | BitFit/Model/Workout/WorkoutStateMachine.swift:229-238 | the `add` completion keeps the invariant whatever its outcome |
| StateMachine.CollectionEndedInv | BitFit/Model/Workout/WorkoutStateMachine.swift:238-257 | the `endCollection` completion keeps the invariant |
| StateMachine.WorkoutFinishedOutcome | BitFit/Model/Workout/WorkoutStateMachine.swift:257-290 | the `finishWorkout` completion always drops the workout builder; with a workout and no error it calls `finishRoute` on the route builder if there is one, keeping the state |
| StateMachine.RouteFinishedOutcome | BitFit/Model/Workout/WorkoutStateMachine.swift:280-288 | the `finishRoute` completion drops the route builder and stops the machine |
| StateMachine.ChainFailureFails | BitFit/Model/Workout/WorkoutStateMachine.swift:238-275 | an `endCollection` error or failure, or a `finishWorkout` error or missing workout, fails the machine with both builders dropped and no further call |
| StateMachine.SuccessfulStopChain | BitFit/Model/Workout/WorkoutStateMachine.swift:180-290 | a fully successful stop makes the six calls in order, appends one final split, ends `Stopped` with both builders dropped and nothing outstanding |
| StateMachine.StopTwiceDuplicatesChain | BitFit/Model/Workout/WorkoutStateMachine.swift:180-222 | stopping a tracking machine twice appends two final splits and starts two finalisation chains |
| StateMachine.IntendedStopIdempotent | BitFit/Model/Workout/WorkoutStateMachine.swift:180-222 | with the corrected stop, which ignores a stop while a finalisation chain is outstanding, a first stop with no chain under way is `stop` as written, and a second stop changes nothing but one more `stopUpdatingLocation` call |
| StateMachine.WorkoutStateMachine.OnBeginCollection | BitFit/Model/Workout/WorkoutStateMachine.swift:341-357 | the completion's new state is `BeginCompleted` of the old one, and the invariant is kept |
| StateMachine.WorkoutStateMachine.OnMetadataAdded | BitFit/Model/Workout/WorkoutStateMachine.swift:220-229 | the completion's new state is `MetadataAdded` of the old one (the distance sample is added next, whatever the outcome), and the invariant is kept |
| StateMachine.WorkoutStateMachine.OnSamplesAdded | BitFit/Model/Workout/WorkoutStateMachine.swift:229-238 | the completion's new state is `SamplesAdded` of the old one (collection is ended at the stop time, whatever the outcome), and the invariant is kept |
| StateMachine.WorkoutStateMachine.OnCollectionEnded | BitFit/Model/Workout/WorkoutStateMachine.swift:238-257 | the completion's new state is `CollectionEnded` of the old one, and the invariant is kept |
| StateMachine.WorkoutStateMachine.OnWorkoutFinished | BitFit/Model/Workout/WorkoutStateMachine.swift:257-290 | the completion's new state is `WorkoutFinished` of the old one, and the invariant is kept |
| StateMachine.WorkoutStateMachine.OnRouteFinished | BitFit/Model/Workout/WorkoutStateMachine.swift:280-288 | the completion's new state is `RouteFinished` of the old one, and the invariant is kept |
| Tracker.InitialInv | BitFit/WorkoutTracker.swift:118-125 | a fresh tracker is `Before` with no builders and the invariant holding |
| Tracker.StartTrackingOutcome | BitFit/WorkoutTracker.swift:196-233 | `startWorkout` throws `WorkoutAlreadyStarted` if and only if the state is not `Before`, and then changes nothing; otherwise it clears the last location, distance and splits, takes both builders, reports `WaitingForLocationStream` and starts updates |
| Tracker.NeverBeforeAgain | BitFit/WorkoutTracker.swift:196-202 | a started tracker that keeps its invariant is never taken back to `Before` by a batch, a stop or any completion, so every later `startWorkout` throws `WorkoutAlreadyStarted` |
| Tracker.WorkoutTracker.StartWorkout | BitFit/WorkoutTracker.swift:196-233 | the method's new state is `StartTracking` of the old one, it throws exactly `StartError`, and the invariant is kept |
| Tracker.ScanLoop | BitFit/WorkoutTracker.swift:362-431 | the waiting loop yields exactly the fold `ScanAll` over the batch |
| Tracker.JumpBecomesReference | BitFit/WorkoutTracker.swift:364-376 | at any index of a batch, a sample with no reference, or more than 10 m from it, becomes the reference and is dropped; nothing else of the scan so far changes |
| Tracker.CloseSampleClassified | BitFit/WorkoutTracker.swift:378-429 | at any index of a batch, a sample within 10 m of the reference, which does not move: while waiting it locks exactly when `Int(accuracy)` is in 0...10, and then the tracker is `Started` at once, the delegate hears `Started`, one `beginCollection` is made, one zero-distance split is appended and published and the sample is admitted; otherwise it is dropped and `WaitingForLocationStream` becomes `WaitingForGPS`, which the delegate hears; once `Started` it is admitted whatever its accuracy |
| Tracker.ScanAllOutcome | BitFit/WorkoutTracker.swift:362-431 | over a batch entered while waiting, either nothing locks (splits, outstanding calls and collection start unchanged; the only event possible is one `WaitingForGPS` report, made only from `WaitingForLocationStream`) or exactly one sample locks, and the batch's events are then at most that report followed by the one lock's `Started` report, single `beginCollection` and split report, with one zero-distance split and one outstanding `beginCollection`; a batch entered `Started` changes none of these; distance, speeds and route builder are unchanged; only samples of the batch are admitted |
| Tracker.LockIsImmediate | BitFit/WorkoutTracker.swift:383-429 | the state changes inside the loop: once sample `i` of a batch has locked, the tracker is `Started` for the rest of the batch and every later sample within 10 m of the reference is admitted, whatever its accuracy |
| Tracker.TrackSample | BitFit/WorkoutTracker.swift:440-461 | one admitted sample updates the tracker exactly as `TrackStep` says |
| Tracker.TrackLoop | BitFit/WorkoutTracker.swift:439-462 | the tracking loop yields exactly the fold `TrackAll` over the admitted samples |
| Tracker.TrackDistance | BitFit/WorkoutTracker.swift:439-462 | the distance grows by exactly the path length from the last location through the admitted samples; the last location ends as the last sample |
| Tracker.TrackSpeeds | BitFit/WorkoutTracker.swift:454-459 | the peak speed never decreases and stays at least the per-hop current speed |
| Tracker.TrackStepSplits | BitFit/WorkoutTracker.swift:441-452 | one sample adds a split if and only if its hop takes the distance beyond `splitDistance * splits.count`: at most one, at the distance reached, published to the delegate |
| Tracker.TrackSplits | BitFit/WorkoutTracker.swift:439-462 | splits are only appended; the split at index k lies beyond `k * splitDistance` and is stamped with the batch time; splits stay ordered by distance |
| Tracker.TrackFrame | BitFit/WorkoutTracker.swift:439-462 | tracking changes neither the state, the builders nor the outstanding calls |
| Tracker.NoBuilderIgnoresBatch | BitFit/WorkoutTracker.swift:355-357 | a batch with no workout builder changes nothing |
| Tracker.TrackedBatchSendsWholeBatch | BitFit/WorkoutTracker.swift:434-470 | a tracked batch, whether it arrived `Started` or locked on the way, ends by sending every location of the batch, dropped and inaccurate ones included, to `insertRouteData` |
| Tracker.IdleBatchInv | BitFit/WorkoutTracker.swift:351-436 | a batch that is not tracked keeps the invariant |
| Tracker.TrackedBatchInv | BitFit/WorkoutTracker.swift:434-470 | a tracked batch keeps the invariant |
| Tracker.BatchPreservesInv | BitFit/WorkoutTracker.swift:351-473 | every batch keeps the invariant; splits only grow, distance and peak speed never decrease; the state only moves forward toward `Started` |
| Tracker.TrackedBatchDistance | BitFit/WorkoutTracker.swift:434-462 | in a tracked batch the distance grows by the path through the admitted samples, and the last location ends as the last of them |
| Tracker.WorkoutTracker.DidUpdateLocations | BitFit/WorkoutTracker.swift:351-473 | the method's new state is `TrackerBatch` of the old state and the batch, and the invariant is kept |
| Tracker.StopBeforeLockTraps | BitFit/WorkoutTracker.swift:243-272 | as written, a tracker just started holds a workout builder with no start date, so a stop before GPS lock reaches the force-unwrap of `startDate` |
| Tracker.IntendedStopOutcome | BitFit/WorkoutTracker.swift:243-272 | the corrected stop can be called right after `startWorkout`; while waiting it ends `Stopped` with both builders dropped, no builder call, splits and outstanding calls untouched and one completion with no error; otherwise it is `stopWorkout` as written |
| Tracker.StopOutcome | BitFit/WorkoutTracker.swift:243-277 | stop always stops updates first; with no builder it completes with `NoWorkoutStarted` and makes no sink call; otherwise it appends exactly one final split at the current distance, reports it as the final update and calls `addMetadata` with average speed `distance / duration` |
| Tracker.WorkoutTracker.StopWorkout | BitFit/WorkoutTracker.swift:243-346 | the method's new state is `StopTracking` of the old one, and the invariant is kept |
| Tracker.BeginCompletedInv | BitFit/WorkoutTracker.swift:393-407 | a `beginCollection` error stops updates, drops the workout builder and reports `Failed`; success changes nothing but the outstanding calls |
| Tracker.MetadataAddedInv | BitFit/WorkoutTracker.swift:277-279 | the `addMetadata` completion keeps the invariant whatever its outcome |
| Tracker.SamplesAddedInv | BitFit/WorkoutTracker.swift:279-287 | the `add` completion keeps the invariant whatever its outcome |
| Tracker.CollectionEndedOutcome | BitFit/WorkoutTracker.swift:287-306 | an `endCollection` error drops both builders and completes with that error; a non-success drops them and completes with `ErrorEndingCollection`; success calls `finishWorkout` |
| Tracker.WorkoutFinishedOutcome | BitFit/WorkoutTracker.swift:306-343 | the `finishWorkout` completion always drops the workout builder; a missing workout drops both, reports `Stopped` and completes with `MissingWorkout` |
| Tracker.RouteFinishedInv | BitFit/WorkoutTracker.swift:333-340 | the `finishRoute` completion drops the route builder and leaves the state as it was |
| Tracker.SuccessfulStopKeepsStarted | BitFit/WorkoutTracker.swift:243-343 | a fully successful stop completes with no error, drops both builders and never reports `Stopped`: the state stays `Started` |
| Tracker.WorkoutTracker.OnBeginCollection | BitFit/WorkoutTracker.swift:391-409 | the completion's new state is `BeginCompleted` of the old one, and the invariant is kept |
| Tracker.WorkoutTracker.OnMetadataAdded | BitFit/WorkoutTracker.swift:277-279 | the completion's new state is `MetadataAdded` of the old one (the distance sample is added next, whatever the outcome), and the invariant is kept |
| Tracker.WorkoutTracker.OnSamplesAdded | BitFit/WorkoutTracker.swift:279-287 | the completion's new state is `SamplesAdded` of the old one (collection is ended at the stop time, whatever the outcome), and the invariant is kept |
| Tracker.WorkoutTracker.OnCollectionEnded | BitFit/WorkoutTracker.swift:287-306 | the completion's new state is `CollectionEnded` of the old one, and the invariant is kept |
| Tracker.WorkoutTracker.OnWorkoutFinished | BitFit/WorkoutTracker.swift:306-343 | the completion's new state is `WorkoutFinished` of the old one, and the invariant is kept |
| Tracker.WorkoutTracker.OnRouteFinished | BitFit/WorkoutTracker.swift:333-340 | the completion's new state is `RouteFinished` of the old one (route builder dropped, the stop caller hears the route's error, state unchanged), and the invariant is kept |
| Tracker.ParseUnitInvertsName | BitFit/WorkoutTracker.swift:13-16 | a unit's raw value parses back to that unit, and only its raw value does |
| Tracker.DistanceUnitSettingRoundTrip | BitFit/WorkoutTracker.swift:478-485 | a stored "Miles" or "Kilometers" is read back as that unit; nothing stored, or anything else, reads as miles |
| Tracker.SupportedActivitiesNamed | BitFit/WorkoutTracker.swift:29-44 | every supported activity has its own name; every other activity is named `unknownWorkoutActivityType` |
| Route.NatStringRoundTrip | BitFit/Model/Health/WorkoutInstance.swift:108-109 | the decimal rendering of a split count reads back as that count |
| Route.LabelRoundTrip | BitFit/Model/Health/WorkoutInstance.swift:108-109 | a waypoint label ("3 km", "2 m") reads back as its split count, so different counts give different labels |
| Route.MarksAtCountChanges | BitFit/Model/Health/WorkoutInstance.swift:103-116 | the waypoints of a batch are exactly, in order, those its locations earn one by one: location `i` gets one if and only if it has a predecessor (earlier in the batch or from an earlier batch) and `Int(d / splitDistance)` differs for the distance `d` covered along the batch before and after its hop; the label is the new count and the unit suffix |
| Route.MarksAreWaypoints | BitFit/Model/Health/WorkoutInstance.swift:103-116 | the markers of a batch are waypoints only, at most one per location, each at a location of the batch |
| Route.TravelDistance | BitFit/Model/Health/WorkoutInstance.swift:103-116 | over a batch the running distance grows by the path length and never decreases; the last location ends as the batch's last |
| Route.Visit | BitFit/Model/Health/WorkoutInstance.swift:104-115 | one location's code path computes exactly its leg and its waypoint |
| Route.TravelLoop | BitFit/Model/Health/WorkoutInstance.swift:103-116 | the loop over a batch yields the running distance and last location of `Travel` and the waypoints of `Marks` |
| Route.OnePointPerLocation | BitFit/Model/Health/WorkoutInstance.swift:118 | the point annotations of a batch are exactly one per location, in the batch's order; no other annotation is a point |
| Route.StartMarkerFirst | BitFit/Model/Health/WorkoutInstance.swift:96-99 | the very first batch begins with a start marker at its first location |
| Route.NoLaterStartMarker | BitFit/Model/Health/WorkoutInstance.swift:96-99 | no batch after the first has a start marker |
| Route.NoEndBeforeEndMarker | BitFit/Model/Health/WorkoutInstance.swift:96-118 | start marker, waypoints and points contain no end marker |
| Route.EndMarkerLast | BitFit/Model/Health/WorkoutInstance.swift:120-128 | a batch that is not the last has no end marker; when done, a single end marker comes last, at the batch's last location or, for an empty batch, at the last route point |
| Route.WorkoutInstance.AppendRoutePoints | BitFit/Model/Health/WorkoutInstance.swift:130-131 | route points are only ever extended; earlier annotations are unchanged |
| Route.RouteQuery.MarkWaypoints | BitFit/Model/Health/WorkoutInstance.swift:103-116 | the handler's captured distance and last location advance as `Travel` says, and the waypoints returned are `Marks` |
| Route.RouteQuery.Deliver | BitFit/Model/Health/WorkoutInstance.swift:84-132 | an error delivery changes nothing; otherwise the route points grow by exactly the batch's annotations and the captured progress advances over the batch |

## Left out

- HealthKit, CoreLocation and Combine are not modelled. Builders and the finished workout are opaque handles. Each sink call is an entry in the trace. The `(success, error)` and `(workout, error)` outcomes are parameters of the completion methods.
- Geodesy is not modelled: `CLLocation.distance(from:)` is any function that never returns a negative value.
- StateMachine.BatchDistance: the path the distance grows along starts at the reference location held before the batch, which may come from the acquisition filter's jump rule and is never checked against the 10 m gate. So the gate holds for the far end of every hop, not for the start of the first hop after a lock. This is what `processLocationUpdate` does.
- Floating point is not modelled: values are Dafny reals, so IEEE rounding, infinities and NaN are not represented.
- Queues and asynchrony are not modelled: `syncQ`, the main and delegate queues, `dispatchPrecondition` and the Combine subscription plumbing. Each public method is one atomic step. Delegate notifications and the stop caller's completion are recorded in order, in the trace, when they are scheduled. Completions may be delivered in any order and are picked by their index among those outstanding.
- `Date()` is not modelled: the time `now` is a parameter. One `now` serves a whole batch, so every lock and split in one batch has the same time.
- The outcomes of `addMetadata`, `add`, `insertRouteData` and the `beginCollection` success flag are only logged by the source, so they are not parameters. `assert(success)` after a successful `beginCollection` is not modelled.
- `pause()` (an `assert(false)`), the `Paused` state and `UnexplainedBeginingFailure` are never reached. They are declared and not used.
- `WorkoutStateMachine.start` asserts `currentState == .Before` and that both builders are nil. The model makes the first a precondition. The second follows from the invariant.
- `stop()` force-unwraps `workoutBuilder.startDate!` once it is past its waiting branch. `StateMachine.StopReady` requires a start date earlier than `now` whenever a workout builder is held outside the waiting states. The waiting states are exempt, because `stop()` handles them without reading the date.
- Tracker.StopOutcome and Tracker.WorkoutTracker.StopWorkout require a start date earlier than `now` whenever a workout builder is held (`Tracker.StopReady`). This includes `WaitingForLocationStream` and `WaitingForGPS`, where `stopWorkout` traps on `startDate!` because no `beginCollection` has run. So the model does not cover stopping before GPS lock with `stopWorkout` as written: `StopBeforeLockTraps` exhibits the trap and `IntendedStopTracking` is the corrected stop (see Findings).
- StateMachine.SpeedsAfter updates the speeds only when the window spans a positive duration. Over a zero or negative duration the source divides anyway, which gives an infinity, NaN or a negative speed. The model leaves the speeds unchanged.
- Tracker.HopSpeeds leaves the speeds unchanged over a zero duration (IEEE infinity or NaN in the source). A negative duration gives a negative speed, as in the source.
- `DistanceType()` is not modelled (HealthKit quantity types), and the distance sample records only distance, start and end. The health and location wrappers are not modelled either.
- `getDistanceUnitSetting` of `WorkoutStateMachine` is not part of this model. The route code therefore takes the distance unit as a parameter. `UserDefaults` is not modelled: the tracker's setting takes the stored string as an `Option<string>`.
- `getRouteForSample` is only modelled from the route query's update handler on. The type check of the sample, the query itself, the map region and the other `WorkoutInstance` accessors are not modelled. A nil `locations` without an error is a `fatalError` in the source. The model has no such input.
- Route.RouteQuery.Deliver requires a non-empty batch when the instance has no route points yet, because the source reads `locations[0]` and traps otherwise. So the source's "no end marker when neither a location nor a route point exists" case cannot arise.
- The main-queue append of the route annotations is modelled as happening immediately, within the delivery.
- The loops of `processLocationUpdate`, `didUpdateLocations` and the route handler run on local copies of the fields they update, which are then written back. There is no aliasing between those fields and anything else, so nothing is lost.

## Findings

| source | as written | input that shows it | evidently intended | confidence | as-written member | corrected member |
|---|---|---|---|---|---|---|
| BitFit/Model/Workout/WorkoutStateMachine.swift:437-439 | a batch's new splits are published only when there are more than one of them | a `Started` machine with one split at 50 m; one accurate sample 60 m on, taking the distance to 110 m. The candidate split at 110 m is dropped, and `splits.count` stays 1, so every later crossing also tests against 100 m | publish every new split (`newSplits.count > 0`), as the older tracker does | medium, not executed | StateMachine.SingleCrossingNotPublished | StateMachine.IntendedPublishReportsCrossing |
| BitFit/WorkoutTracker.swift:265-272 | `stopWorkout` force-unwraps `workoutBuilder.startDate!`, which is set only once `beginCollection` has run | `startWorkout`, then `stopWorkout` before any sample reaches lock accuracy (state `WaitingForLocationStream` or `WaitingForGPS`, workout builder held): the unwrap of a nil start date traps | handle the waiting states as `WorkoutStateMachine.stop` does at WorkoutStateMachine.swift:194-200: drop the builders and stop, with no sink call | high, not executed | Tracker.StopBeforeLockTraps | Tracker.IntendedStopOutcome |
| BitFit/Model/Workout/WorkoutStateMachine.swift:180-222 | `stop()` has no guard against a finalisation chain already under way | a `Started` machine with a workout builder; `stop()` twice before the first `addMetadata` completes: two final splits are appended and two chains start on the same builder | a second stop is a no-op apart from stopping location updates again | medium, not executed | StateMachine.StopTwiceDuplicatesChain | StateMachine.IntendedStopIdempotent |

In every row the classes follow the code as written, and the corrected
definition stands beside them. For the stop rows these are
`IntendedStopTracking` and `IntendedStopWorkout`. For the publish rule the
class uses `PublishedSplits`. The intended rule is `IntendedPublishedSplits`.
Under it, a batch that crosses a threshold always adds a split
(`IntendedPublishReportsCrossing`, with `CrossingCreatesSplit` and
`AccumulateNewSplitsIndependent`).
