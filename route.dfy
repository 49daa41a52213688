/** The map annotations of a recorded workout's route
    (`WorkoutInstance.getRouteForSample`). The route arrives from the store in
    batches of locations; for each batch the annotations are built in order
    (a start marker on the very first batch, a waypoint each time another
    whole split unit has been covered, one point per location, an end
    marker on the final batch) and appended to the instance's route
    points. The running distance and last location carry over from one
    batch of a route to the next. */
module Route {
  import opened Workout

  /** `CLLocationCoordinate2D`. */
  datatype Coordinate = Coordinate(latitude: real, longitude: real)

  function CoordinateOf(loc: Location): Coordinate
  {
    Coordinate(loc.lat, loc.lon)
  }

  /** `RouteAnnotation.Position`. */
  datatype Position = Start | End | Waypoint(text: string) | Point

  datatype RouteAnnotation = RouteAnnotation(position: Position, coordinate: Coordinate)

  /** The length of one split unit, in metres. */
  function SplitLength(unit: DistanceUnit): (r: real)
    ensures r > 0.0
  {
    if unit == Miles then 1609.34 else 1000.0
  }

  /** The unit suffix of a waypoint label. */
  function UnitSuffix(unit: DistanceUnit): string
  {
    if unit == Miles then "m" else "km"
  }

  // ------------------------------------------------------ waypoint labels

  function DigitChar(d: nat): char
    requires d < 10
  {
    "0123456789"[d]
  }

  function DigitValue(c: char): nat
  {
    if '0' <= c <= '9' then (c as int - '0' as int) as nat else 0
  }

  /** Swift's decimal rendering of a non-negative integer. */
  function NatString(n: nat): (s: string)
    ensures |s| > 0 && forall i :: 0 <= i < |s| ==> '0' <= s[i] <= '9'
    decreases n
  {
    if n < 10 then [DigitChar(n)] else NatString(n / 10) + [DigitChar(n % 10)]
  }

  /** Swift's decimal rendering of an integer. */
  function IntString(n: int): string
  {
    if n < 0 then "-" + NatString(-n) else NatString(n)
  }

  /** The value of a string of decimal digits. */
  function NatValue(s: string): nat
    decreases |s|
  {
    if s == [] then 0 else NatValue(s[..|s| - 1]) * 10 + DigitValue(s[|s| - 1])
  }

  /** The rendering reads back as the number it renders. */
  lemma {:induction false} NatStringRoundTrip(n: nat)
    ensures NatValue(NatString(n)) == n
    decreases n
  {
    var s := NatString(n);
    if n >= 10 {
      NatStringRoundTrip(n / 10);
      assert s[..|s| - 1] == NatString(n / 10);
      assert s[|s| - 1] == DigitChar(n % 10);
    }
  }

  /** The label of the waypoint for `n` split units: the number, a space
      and the unit suffix. */
  function Label(n: int, unit: DistanceUnit): string
  {
    IntString(n) + " " + UnitSuffix(unit)
  }

  predicate IsDigit(c: char) { '0' <= c <= '9' }

  /** The length of the run of digits `s` starts with. */
  function LeadingDigits(s: string): (n: nat)
    ensures n <= |s|
    decreases |s|
  {
    if s == [] || !IsDigit(s[0]) then 0 else 1 + LeadingDigits(s[1..])
  }

  /** The split count a waypoint label names: the number its leading digits
      spell. */
  function LabelCount(text: string): nat
  {
    NatValue(text[..LeadingDigits(text)])
  }

  lemma {:induction false} DigitsBeforeSpace(a: string, t: string)
    requires forall i :: 0 <= i < |a| ==> IsDigit(a[i])
    ensures LeadingDigits(a + " " + t) == |a|
    decreases |a|
  {
    if a != [] {
      assert (a + " " + t)[0] == a[0];
      assert (a + " " + t)[1..] == a[1..] + " " + t;
      DigitsBeforeSpace(a[1..], t);
    }
  }

  /** The label of a waypoint reads back as its split count, so different
      counts give different labels. */
  lemma LabelRoundTrip(n: nat, unit: DistanceUnit)
    ensures LabelCount(Label(n, unit)) == n
  {
    var a := NatString(n);
    DigitsBeforeSpace(a, UnitSuffix(unit));
    assert Label(n, unit)[..|a|] == a;
    NatStringRoundTrip(n);
  }

  // --------------------------------------------------- one batch, as data

  /** The state the query's handler carries between batches: the distance
      covered so far and the last location seen. */
  datatype Progress = Progress(distance: real, last: Option<Location>)

  /** The number of whole split units in `d` (`Int(d / splitDistance)`). */
  function SplitCount(d: real, unit: DistanceUnit): int
  {
    Truncate(d / SplitLength(unit))
  }

  /** The progress after one more location: its hop from the last location
      is added, and it becomes the last location. */
  function Leg(dist: Metric, p: Progress, loc: Location): Progress
  {
    if p.last.Some? then Progress(p.distance + dist(loc, p.last.value), Some(loc)) else Progress(p.distance, Some(loc))
  }

  function Travel(dist: Metric, p: Progress, locs: seq<Location>): Progress
    decreases |locs|
  {
    if locs == [] then p else Travel(dist, Leg(dist, p, locs[0]), locs[1..])
  }

  /** The waypoint, if any, that `loc` earns: one when it has a predecessor
      and its hop changes the whole number of split units covered. */
  function Mark(dist: Metric, unit: DistanceUnit, p: Progress, loc: Location): seq<RouteAnnotation>
  {
    WaypointOn(unit, p.last.Some?, p.distance, Leg(dist, p, loc).distance, loc)
  }

  /** The waypoint at `loc` for a hop from `before` to `after` metres: one
      when the location has a predecessor and the whole number of split
      units changes across the hop, labelled with the new count. */
  function WaypointOn(unit: DistanceUnit, hasPredecessor: bool, before: real, after: real, loc: Location)
    : seq<RouteAnnotation>
  {
    if hasPredecessor && SplitCount(after, unit) != SplitCount(before, unit)
    then [RouteAnnotation(Waypoint(Label(SplitCount(after, unit), unit)), CoordinateOf(loc))]
    else []
  }

  function Marks(dist: Metric, unit: DistanceUnit, p: Progress, locs: seq<Location>): seq<RouteAnnotation>
    decreases |locs|
  {
    if locs == [] then [] else Mark(dist, unit, p, locs[0]) + Marks(dist, unit, Leg(dist, p, locs[0]), locs[1..])
  }

  /** The first location of a batch and the rest. */
  lemma Unfold(dist: Metric, unit: DistanceUnit, p: Progress, locs: seq<Location>)
    requires locs != []
    ensures Travel(dist, p, locs) == Travel(dist, Leg(dist, p, locs[0]), locs[1..])
    ensures Marks(dist, unit, p, locs) == Mark(dist, unit, p, locs[0]) + Marks(dist, unit, Leg(dist, p, locs[0]), locs[1..])
  {
  }

  /** One point annotation per location, in order. */
  function Points(locs: seq<Location>): (r: seq<RouteAnnotation>)
    ensures |r| == |locs|
  {
    seq(|locs|, i requires 0 <= i < |locs| => RouteAnnotation(Point, CoordinateOf(locs[i])))
  }

  /** The end marker of the final batch: at the batch's last location, or
      else at the last route point; omitted when there is neither. */
  function EndMarker(routePoints: seq<RouteAnnotation>, locations: seq<Location>, done: bool): seq<RouteAnnotation>
  {
    if !done then []
    else if locations != [] then [RouteAnnotation(End, CoordinateOf(locations[|locations| - 1]))]
    else if routePoints != [] then [RouteAnnotation(End, routePoints[|routePoints| - 1].coordinate)]
    else []
  }

  /** The start marker of the very first batch, at its first location. */
  function StartMarker(routePoints: seq<RouteAnnotation>, locations: seq<Location>): seq<RouteAnnotation>
    requires routePoints != [] || locations != []
  {
    if routePoints == [] then [RouteAnnotation(Start, CoordinateOf(locations[0]))] else []
  }

  /** The annotations one batch adds. The very first batch of the instance
      must hold a location (the route query's handler reads `locations[0]`). */
  function BatchAnnotations(dist: Metric, unit: DistanceUnit, routePoints: seq<RouteAnnotation>, p: Progress,
                            locations: seq<Location>, done: bool): seq<RouteAnnotation>
    requires routePoints != [] || locations != []
  {
    StartMarker(routePoints, locations) + Marks(dist, unit, p, locations) + Points(locations)
    + EndMarker(routePoints, locations, done)
  }

  // ------------------------------------------------------------ properties

  /** The waypoint location `i` of a batch earns, stated on the distance
      covered along the batch: one when it has a predecessor (an earlier
      location of the batch, or the last location of an earlier batch) and
      the whole number of split units covered before its hop differs from
      the number after it; its label is the new count. */
  function WaypointAt(dist: Metric, unit: DistanceUnit, p: Progress, locs: seq<Location>, i: nat): seq<RouteAnnotation>
    requires i < |locs|
  {
    WaypointOn(unit, i > 0 || p.last.Some?, p.distance + PathLength(dist, p.last, locs[..i]),
               p.distance + PathLength(dist, p.last, locs[..i + 1]), locs[i])
  }

  /** The waypoints earned by the first `n` locations of a batch, in order. */
  function Waypoints(dist: Metric, unit: DistanceUnit, p: Progress, locs: seq<Location>, n: nat): seq<RouteAnnotation>
    requires n <= |locs|
  {
    if n == 0 then [] else Waypoints(dist, unit, p, locs, n - 1) + WaypointAt(dist, unit, p, locs, n - 1)
  }

  lemma {:induction false} TravelSnoc(dist: Metric, p: Progress, a: seq<Location>, x: Location)
    ensures Travel(dist, p, a + [x]) == Leg(dist, Travel(dist, p, a), x)
    decreases |a|
  {
    if a == [] {
      assert [x][1..] == [];
    } else {
      assert (a + [x])[1..] == a[1..] + [x];
      TravelSnoc(dist, Leg(dist, p, a[0]), a[1..], x);
    }
  }

  lemma {:induction false} MarksSnoc(dist: Metric, unit: DistanceUnit, p: Progress, a: seq<Location>, x: Location)
    ensures Marks(dist, unit, p, a + [x]) == Marks(dist, unit, p, a) + Mark(dist, unit, Travel(dist, p, a), x)
    decreases |a|
  {
    if a == [] {
      assert [x][1..] == [];
    } else {
      assert (a + [x])[1..] == a[1..] + [x];
      MarksSnoc(dist, unit, Leg(dist, p, a[0]), a[1..], x);
    }
  }

  /** The progress after the first `i` locations of a batch. */
  lemma TravelPrefix(dist: Metric, p: Progress, locs: seq<Location>, i: nat)
    requires i <= |locs|
    ensures var q := Travel(dist, p, locs[..i]);
      q.distance == p.distance + PathLength(dist, p.last, locs[..i]) && (q.last.Some? <==> i > 0 || p.last.Some?)
  {
    TravelDistance(dist, p, locs[..i]);
  }

  lemma TravelPrefixStep(dist: Metric, p: Progress, locs: seq<Location>, i: nat)
    requires i < |locs|
    ensures Travel(dist, p, locs[..i + 1]) == Leg(dist, Travel(dist, p, locs[..i]), locs[i])
  {
    assert locs[..i + 1] == locs[..i] + [locs[i]];
    TravelSnoc(dist, p, locs[..i], locs[i]);
  }

  /** Location `i` earns, from the progress the loop has reached, the
      waypoint `WaypointAt` says. */
  lemma MarkIsWaypointAt(dist: Metric, unit: DistanceUnit, p: Progress, locs: seq<Location>, i: nat)
    requires i < |locs|
    ensures Mark(dist, unit, Travel(dist, p, locs[..i]), locs[i]) == WaypointAt(dist, unit, p, locs, i)
  {
    TravelPrefix(dist, p, locs, i);
    TravelPrefix(dist, p, locs, i + 1);
    TravelPrefixStep(dist, p, locs, i);
  }

  /** The waypoints of a batch are exactly, in order, the waypoints its
      locations earn one by one: a location gets one if and only if the whole
      number of split units covered changes across its hop, labelled with the
      new count. */
  lemma {:induction false} MarksAtCountChanges(dist: Metric, unit: DistanceUnit, p: Progress, locs: seq<Location>, n: nat)
    requires n <= |locs|
    ensures Marks(dist, unit, p, locs[..n]) == Waypoints(dist, unit, p, locs, n)
    decreases n
  {
    if n > 0 {
      assert locs[..n] == locs[..n - 1] + [locs[n - 1]];
      MarksAtCountChanges(dist, unit, p, locs, n - 1);
      MarksSnoc(dist, unit, p, locs[..n - 1], locs[n - 1]);
      MarkIsWaypointAt(dist, unit, p, locs, n - 1);
    }
  }

  /** The markers a batch earns are waypoints only, at most one per
      location, each at a location of the batch. */
  lemma {:induction false} MarksAreWaypoints(dist: Metric, unit: DistanceUnit, p: Progress, locs: seq<Location>)
    ensures var r := Marks(dist, unit, p, locs);
      && |r| <= |locs|
      && forall i :: 0 <= i < |r| ==> r[i].position.Waypoint? && exists loc :: loc in locs && r[i].coordinate == CoordinateOf(loc)
    decreases |locs|
  {
    if locs != [] {
      MarksAreWaypoints(dist, unit, Leg(dist, p, locs[0]), locs[1..]);
      var r := Marks(dist, unit, p, locs);
      var m := Mark(dist, unit, p, locs[0]);
      var rest := Marks(dist, unit, Leg(dist, p, locs[0]), locs[1..]);
      forall i | 0 <= i < |r|
        ensures r[i].position.Waypoint? && exists loc :: loc in locs && r[i].coordinate == CoordinateOf(loc)
      {
        if i < |m| {
          assert r[i] == m[i];
          assert locs[0] in locs;
        } else {
          assert r[i] == rest[i - |m|];
          var loc :| loc in locs[1..] && rest[i - |m|].coordinate == CoordinateOf(loc);
          assert loc in locs;
        }
      }
    }
  }

  /** Over a batch the distance grows by the length of the path from the
      last location through the batch, so it never decreases, and the last
      location ends as the batch's last. */
  lemma {:induction false} TravelDistance(dist: Metric, p: Progress, locs: seq<Location>)
    ensures var q := Travel(dist, p, locs);
      && q.distance == p.distance + PathLength(dist, p.last, locs)
      && p.distance <= q.distance
      && q.last == (if locs == [] then p.last else Some(locs[|locs| - 1]))
    decreases |locs|
  {
    if locs != [] {
      TravelDistance(dist, Leg(dist, p, locs[0]), locs[1..]);
    }
  }

  /** The coordinates of the point annotations among `ann`, in order. */
  function PointCoordinates(ann: seq<RouteAnnotation>): seq<Coordinate>
    decreases |ann|
  {
    if ann == [] then []
    else (if ann[0].position == Point then [ann[0].coordinate] else []) + PointCoordinates(ann[1..])
  }

  function Coordinates(locs: seq<Location>): (r: seq<Coordinate>)
    ensures |r| == |locs| && forall i :: 0 <= i < |locs| ==> r[i] == CoordinateOf(locs[i])
  {
    seq(|locs|, i requires 0 <= i < |locs| => CoordinateOf(locs[i]))
  }

  lemma {:induction false} PointCoordinatesAppend(a: seq<RouteAnnotation>, b: seq<RouteAnnotation>)
    ensures PointCoordinates(a + b) == PointCoordinates(a) + PointCoordinates(b)
    decreases |a|
  {
    if a != [] {
      assert a + b != [] && (a + b)[0] == a[0];
      assert (a + b)[1..] == a[1..] + b;
      PointCoordinatesAppend(a[1..], b);
      var x := if a[0].position == Point then [a[0].coordinate] else [];
      assert PointCoordinates(a + b) == x + PointCoordinates(a[1..] + b);
      assert PointCoordinates(a) == x + PointCoordinates(a[1..]);
    } else {
      assert a + b == b;
    }
  }

  /** No annotation among `ann` has position `pos`. */
  predicate Lacks(ann: seq<RouteAnnotation>, pos: Position)
  {
    forall i :: 0 <= i < |ann| ==> ann[i].position != pos
  }

  lemma LacksAppend(a: seq<RouteAnnotation>, b: seq<RouteAnnotation>, pos: Position)
    requires Lacks(a, pos) && Lacks(b, pos)
    ensures Lacks(a + b, pos)
  {
    forall i | 0 <= i < |a + b| ensures (a + b)[i].position != pos {
      if i >= |a| {
        assert (a + b)[i] == b[i - |a|];
      }
    }
  }

  /** The waypoints a batch earns have no position other than a
      waypoint's. */
  lemma MarksLack(dist: Metric, unit: DistanceUnit, p: Progress, locations: seq<Location>, pos: Position)
    requires !pos.Waypoint?
    ensures Lacks(Marks(dist, unit, p, locations), pos)
  {
    MarksAreWaypoints(dist, unit, p, locations);
  }

  lemma NoPointsAmong(ann: seq<RouteAnnotation>)
    requires Lacks(ann, Point)
    ensures PointCoordinates(ann) == []
    decreases |ann|
  {
    if ann != [] {
      NoPointsAmong(ann[1..]);
    }
  }

  lemma {:induction false} PointsCoordinates(locs: seq<Location>)
    ensures PointCoordinates(Points(locs)) == Coordinates(locs)
    decreases |locs|
  {
    if locs != [] {
      assert Points(locs) == [Points(locs)[0]] + Points(locs[1..]);
      PointCoordinatesAppend([Points(locs)[0]], Points(locs[1..]));
      PointsCoordinates(locs[1..]);
    }
  }

  /** A batch adds exactly one point annotation per location, in the
      batch's order; no other annotation is a point. */
  lemma OnePointPerLocation(dist: Metric, unit: DistanceUnit, routePoints: seq<RouteAnnotation>, p: Progress,
                            locations: seq<Location>, done: bool)
    requires routePoints != [] || locations != []
    ensures PointCoordinates(BatchAnnotations(dist, unit, routePoints, p, locations, done)) == Coordinates(locations)
  {
    var start := StartMarker(routePoints, locations);
    var marks := Marks(dist, unit, p, locations);
    var end := EndMarker(routePoints, locations, done);
    BatchLayout(dist, unit, routePoints, p, locations, done);
    MarksLack(dist, unit, p, locations, Point);
    NoPointsAmong(start);
    NoPointsAmong(marks);
    NoPointsAmong(end);
    PointsCoordinates(locations);
    PointCoordinatesAppend(marks, Points(locations));
    PointCoordinatesAppend(start, marks + Points(locations));
    PointCoordinatesAppend(start + (marks + Points(locations)), end);
  }

  /** A batch's waypoints and points have neither position `pos` nor any
      other that is not a waypoint or a point. */
  lemma MarksAndPointsLack(dist: Metric, unit: DistanceUnit, p: Progress, locations: seq<Location>, pos: Position)
    requires !pos.Waypoint? && pos != Point
    ensures Lacks(Marks(dist, unit, p, locations) + Points(locations), pos)
  {
    MarksLack(dist, unit, p, locations, pos);
    LacksAppend(Marks(dist, unit, p, locations), Points(locations), pos);
  }

  /** The very first batch begins with a start marker at its first
      location. */
  lemma StartMarkerFirst(dist: Metric, unit: DistanceUnit, p: Progress, locations: seq<Location>, done: bool)
    requires locations != []
    ensures BatchAnnotations(dist, unit, [], p, locations, done)[0] == RouteAnnotation(Start, CoordinateOf(locations[0]))
  {
  }

  /** A batch as its three parts: the start marker, the body of waypoints
      and points, and the end marker. */
  lemma BatchLayout(dist: Metric, unit: DistanceUnit, routePoints: seq<RouteAnnotation>, p: Progress,
                    locations: seq<Location>, done: bool)
    requires routePoints != [] || locations != []
    ensures BatchAnnotations(dist, unit, routePoints, p, locations, done)
         == StartMarker(routePoints, locations) + (Marks(dist, unit, p, locations) + Points(locations))
            + EndMarker(routePoints, locations, done)
  {
  }

  /** No batch after the first has a start marker. */
  lemma NoLaterStartMarker(dist: Metric, unit: DistanceUnit, routePoints: seq<RouteAnnotation>, p: Progress,
                           locations: seq<Location>, done: bool)
    requires routePoints != []
    ensures Lacks(BatchAnnotations(dist, unit, routePoints, p, locations, done), Start)
  {
    var body := Marks(dist, unit, p, locations) + Points(locations);
    var end := EndMarker(routePoints, locations, done);
    BatchLayout(dist, unit, routePoints, p, locations, done);
    MarksAndPointsLack(dist, unit, p, locations, Start);
    assert StartMarker(routePoints, locations) == [];
    assert Lacks(end, Start);
    LacksAppend(body, end, Start);
  }

  /** Nothing before the end marker of a batch is an end marker. */
  lemma NoEndBeforeEndMarker(dist: Metric, unit: DistanceUnit, routePoints: seq<RouteAnnotation>, p: Progress,
                             locations: seq<Location>)
    requires routePoints != [] || locations != []
    ensures Lacks(BatchAnnotations(dist, unit, routePoints, p, locations, false), End)
  {
    var start := StartMarker(routePoints, locations);
    var body := Marks(dist, unit, p, locations) + Points(locations);
    BatchLayout(dist, unit, routePoints, p, locations, false);
    MarksAndPointsLack(dist, unit, p, locations, End);
    assert Lacks(start, End);
    LacksAppend(start, body, End);
    assert EndMarker(routePoints, locations, false) == [];
  }

  /** A batch that is not the last has no end marker. When the route is
      done, a single end marker comes last: at the batch's last location,
      or, for an empty batch, at the last route point. */
  lemma EndMarkerLast(dist: Metric, unit: DistanceUnit, routePoints: seq<RouteAnnotation>, p: Progress,
                      locations: seq<Location>, done: bool)
    requires routePoints != [] || locations != []
    ensures var ann := BatchAnnotations(dist, unit, routePoints, p, locations, done);
      var body := BatchAnnotations(dist, unit, routePoints, p, locations, false);
      && Lacks(body, End)
      && (!done ==> ann == body)
      && (done ==> ann == body + [RouteAnnotation(End, if locations != [] then CoordinateOf(locations[|locations| - 1])
                                                      else routePoints[|routePoints| - 1].coordinate)])
  {
    NoEndBeforeEndMarker(dist, unit, routePoints, p, locations);
  }

  // -------------------------------------------------------------- the loop

  /** One location of a batch: its hop is added to the distance, it
      becomes the last location, and the waypoint it earns, if any, is
      returned. */
  method Visit(dist: Metric, unit: DistanceUnit, p: Progress, loc: Location) returns (q: Progress, mark: seq<RouteAnnotation>)
    ensures q == Leg(dist, p, loc)
    ensures mark == Mark(dist, unit, p, loc)
  {
    var splitDistance := SplitLength(unit);
    var distance := p.distance;
    mark := [];
    if p.last.Some? {
      var delta := dist(loc, p.last.value);
      var lastDistance := distance;
      distance := distance + delta;
      if Truncate(distance / splitDistance) != Truncate(lastDistance / splitDistance) {
        mark := [RouteAnnotation(Waypoint(Label(Truncate(distance / splitDistance), unit)), CoordinateOf(loc))];
      }
    }
    q := Progress(distance, Some(loc));
  }

  /** One turn of the loop keeps its invariants. */
  lemma TravelStep(dist: Metric, unit: DistanceUnit, p: Progress, q: Progress, marks: seq<RouteAnnotation>,
                   locations: seq<Location>, i: nat)
    requires i < |locations|
    requires Travel(dist, p, locations) == Travel(dist, q, locations[i..])
    requires Marks(dist, unit, p, locations) == marks + Marks(dist, unit, q, locations[i..])
    ensures var q' := Leg(dist, q, locations[i]);
      && Travel(dist, p, locations) == Travel(dist, q', locations[i + 1..])
      && Marks(dist, unit, p, locations) == marks + Mark(dist, unit, q, locations[i]) + Marks(dist, unit, q', locations[i + 1..])
  {
    Unfold(dist, unit, q, locations[i..]);
    assert locations[i..][0] == locations[i] && locations[i..][1..] == locations[i + 1..];
    var mark := Mark(dist, unit, q, locations[i]);
    var rest := Marks(dist, unit, Leg(dist, q, locations[i]), locations[i + 1..]);
    assert marks + (mark + rest) == marks + mark + rest;
  }

  /** The loop over a batch, on the handler's distance and last location:
      they end as `Travel` says, and the waypoints collected are `Marks`. */
  method TravelLoop(dist: Metric, unit: DistanceUnit, p: Progress, locations: seq<Location>)
    returns (q: Progress, marks: seq<RouteAnnotation>)
    ensures q == Travel(dist, p, locations)
    ensures marks == Marks(dist, unit, p, locations)
  {
    q := p;
    marks := [];
    var i := 0;
    while i < |locations|
      invariant 0 <= i <= |locations|
      invariant Travel(dist, p, locations) == Travel(dist, q, locations[i..])
      invariant Marks(dist, unit, p, locations) == marks + Marks(dist, unit, q, locations[i..])
    {
      var q', mark := Visit(dist, unit, q, locations[i]);
      TravelStep(dist, unit, p, q, marks, locations, i);
      q := q';
      marks := marks + mark;
      i := i + 1;
    }
  }

  // ------------------------------------------------------------ the objects

  /** The workout as shown in the history; only its route points are
      modelled. */
  class WorkoutInstance {
    var routePoints: seq<RouteAnnotation>

    constructor ()
      ensures routePoints == []
    {
      routePoints := [];
    }

    /** The main-queue append of a batch's annotations: the route points are
        only ever extended. */
    method AppendRoutePoints(newAnnotations: seq<RouteAnnotation>)
      modifies this
      ensures routePoints == old(routePoints) + newAnnotations
    {
      routePoints := routePoints + newAnnotations;
    }
  }

  /** The route query `getRouteForSample` starts for one route, with the
      distance and last location its handler captures. */
  class RouteQuery {
    const instance: WorkoutInstance
    var distance: real
    var lastLocation: Option<Location>

    function Current(): Progress
      reads this
    {
      Progress(distance, lastLocation)
    }

    constructor (instance: WorkoutInstance)
      ensures this.instance == instance && Current() == Progress(0.0, None)
    {
      this.instance := instance;
      distance := 0.0;
      lastLocation := None;
    }

    /** The loop over a batch: distance and last location advance and the
        waypoints are collected. */
    method MarkWaypoints(dist: Metric, unit: DistanceUnit, locations: seq<Location>)
      returns (marks: seq<RouteAnnotation>)
      modifies this
      ensures Current() == Travel(dist, old(Current()), locations)
      ensures marks == Marks(dist, unit, old(Current()), locations)
    {
      var q;
      q, marks := TravelLoop(dist, unit, Current(), locations);
      distance, lastLocation := q.distance, q.last;
    }

    /** The query's handler for one delivery: an error is logged and
        ignored; otherwise the batch's annotations are built and appended to
        the instance's route points. */
    method Deliver(dist: Metric, unit: DistanceUnit, locations: seq<Location>, done: bool, error: Option<SinkError>)
      requires error.None? ==> locations != [] || instance.routePoints != []
      modifies this, instance
      ensures error.Some? ==> Current() == old(Current()) && instance.routePoints == old(instance.routePoints)
      ensures error.None? ==>
        && Current() == Travel(dist, old(Current()), locations)
        && instance.routePoints == old(instance.routePoints)
             + BatchAnnotations(dist, unit, old(instance.routePoints), old(Current()), locations, done)
    {
      if error.Some? {
        return;
      }
      var routePoints := instance.routePoints;
      var newAnnotations: seq<RouteAnnotation> := [];
      if |routePoints| == 0 {
        newAnnotations := [RouteAnnotation(Start, CoordinateOf(locations[0]))];
      }
      var marks := MarkWaypoints(dist, unit, locations);
      newAnnotations := newAnnotations + marks + Points(locations);
      if done {
        var finalLocation: Option<Coordinate> := if locations != [] then Some(CoordinateOf(locations[|locations| - 1])) else None;
        if finalLocation.None? && routePoints != [] {
          finalLocation := Some(routePoints[|routePoints| - 1].coordinate);
        }
        if finalLocation.Some? {
          newAnnotations := newAnnotations + [RouteAnnotation(End, finalLocation.value)];
        }
      }
      assert newAnnotations == BatchAnnotations(dist, unit, routePoints, old(Current()), locations, done);
      instance.AppendRoutePoints(newAnnotations);
    }
  }
}
