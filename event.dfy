/** The event aggregate of src/app/entities/events/event.ts: an ordered list of
    activities, a list of laps, a name and a summary, with the cross-activity queries
    over the activities' points. */
module Events {
  import opened Common
  import opened Seqs
  import opened Points
  import opened Statistics

  /** An activity as the event uses it: its ID, its start date (milliseconds) and its
      own duration. How it stores and selects its points is not part of this model. */
  datatype Activity = Activity(id: string, startDate: int, durationInSeconds: real)

  /** The optional `startDate`, `endDate` and `step` arguments every query passes on. */
  datatype Query = Query(startDate: Option<int>, endDate: Option<int>, step: Option<int>)

  /** `activity.getPoints(startDate, endDate, step)`, left uninterpreted. */
  type PointSource = (Activity, Query) -> seq<Point>

  /** The event summary; its shape is not part of this model. */
  type Summary(==)

  /** `activities || this.getActivities()`: an explicit list, even an empty one, wins. */
  function Selected(all: seq<Activity>, activities: Option<seq<Activity>>): seq<Activity> {
    if activities.Some? then activities.value else all
  }

  // ---------------------------------------------------------------------------
  // getPoints (event.ts:72-82)

  /** The `reduce` that concatenates each activity's points, in activity order. */
  function PointsOf(source: PointSource, acts: seq<Activity>, q: Query): seq<Point> {
    if acts == [] then []
    else PointsOf(source, acts[..|acts| - 1], q) + source(acts[|acts| - 1], q)
  }

  /** The points of a concatenation of activity lists are the concatenation of their points. */
  lemma {:induction false} PointsOfConcat(source: PointSource, a: seq<Activity>, b: seq<Activity>, q: Query)
    ensures PointsOf(source, a + b, q) == PointsOf(source, a, q) + PointsOf(source, b, q)
  {
    if b == [] {
      assert a + b == a;
    } else {
      var b' := b[..|b| - 1];
      assert (a + b)[..|a + b| - 1] == a + b';
      assert (a + b)[|a + b| - 1] == b[|b| - 1];
      PointsOfConcat(source, a, b', q);
    }
  }

  /** A point is returned exactly when some selected activity yields it. */
  lemma {:induction false} PointsOfMembership(source: PointSource, acts: seq<Activity>, q: Query, p: Point)
    ensures p in PointsOf(source, acts, q) <==> exists a :: a in acts && p in source(a, q)
  {
    if acts != [] {
      var n := |acts| - 1;
      PointsOfMembership(source, acts[..n], q, p);
      assert acts == acts[..n] + [acts[n]];
      if p in PointsOf(source, acts, q) && p !in PointsOf(source, acts[..n], q) {
        assert p in source(acts[n], q);
      }
    }
  }

  /** The membership of `PointsOf`, for every point at once. */
  lemma PointsOfMembers(source: PointSource, acts: seq<Activity>, q: Query)
    ensures forall p :: p in PointsOf(source, acts, q) <==> exists a :: a in acts && p in source(a, q)
  {
    forall p {
      PointsOfMembership(source, acts, q, p);
    }
  }

  /** The positioned points of a concatenation of activity lists are the positioned points
      of the first list followed by those of the second. */
  lemma PositionedPointsOfConcat(source: PointSource, a: seq<Activity>, b: seq<Activity>, q: Query)
    ensures Filter(PointsOf(source, a + b, q), HasPosition)
         == Filter(PointsOf(source, a, q), HasPosition) + Filter(PointsOf(source, b, q), HasPosition)
  {
    PointsOfConcat(source, a, b, q);
    FilterConcat(PointsOf(source, a, q), PointsOf(source, b, q), HasPosition);
  }

  /** Every positioned point of the query is kept as often as it occurs, no other point is. */
  lemma PositionedPointsExact(source: PointSource, acts: seq<Activity>, q: Query, p: Point)
    ensures multiset(Filter(PointsOf(source, acts, q), HasPosition))[p]
         == if HasPosition(p) then multiset(PointsOf(source, acts, q))[p] else 0
  {
    FilterCount(PointsOf(source, acts, q), HasPosition, p);
  }

  // ---------------------------------------------------------------------------
  // getData and getDataByType (event.ts:100-136)

  /** The point-by-point flattening of the readings of type `t`. */
  function FlattenType(pts: seq<Point>, t: DataType): seq<DataValue> {
    if pts == [] then [] else FlattenType(pts[..|pts| - 1], t) + ValuesOf(pts[|pts| - 1], t)
  }

  lemma {:induction false} FlattenTypeConcat(a: seq<Point>, b: seq<Point>, t: DataType)
    ensures FlattenType(a + b, t) == FlattenType(a, t) + FlattenType(b, t)
  {
    if b == [] {
      assert a + b == a;
    } else {
      var b' := b[..|b| - 1];
      assert (a + b)[..|a + b| - 1] == a + b';
      assert (a + b)[|a + b| - 1] == b[|b| - 1];
      FlattenTypeConcat(a, b', t);
    }
  }

  /** Every data-type key that appears in some point. */
  function AllKeys(pts: seq<Point>): set<DataType> {
    if pts == [] then {} else AllKeys(pts[..|pts| - 1]) + pts[|pts| - 1].data.Keys
  }

  lemma {:induction false} AllKeysMembership(pts: seq<Point>, k: DataType)
    ensures k in AllKeys(pts) <==> exists i :: 0 <= i < |pts| && k in pts[i].data
  {
    if pts != [] {
      var n := |pts| - 1;
      AllKeysMembership(pts[..n], k);
      if k in AllKeys(pts[..n]) {
        var i :| 0 <= i < n && k in pts[..n][i].data;
        assert pts[i] == pts[..n][i];
      }
      if exists i :: 0 <= i < |pts| && k in pts[i].data {
        var i :| 0 <= i < |pts| && k in pts[i].data;
        if i < n { assert pts[..n][i] == pts[i]; }
      }
    }
  }

  /** A key no point carries flattens to nothing. */
  lemma {:induction false} FlattenTypeOutsideKeys(pts: seq<Point>, k: DataType)
    requires k !in AllKeys(pts)
    ensures FlattenType(pts, k) == []
  {
    if pts != [] {
      FlattenTypeOutsideKeys(pts[..|pts| - 1], k);
    }
  }

  /** The map `getData` builds: each key that appears in a point, mapped to that key's
      readings across the points, in point order. */
  function DataMap(pts: seq<Point>): map<DataType, seq<DataValue>> {
    map k | k in AllKeys(pts) :: FlattenType(pts, k)
  }

  /** The map after the `forEach` over one point's data: each of the point's keys gains that
      point's readings, after those already collected; other keys are untouched. */
  function Merge(acc: map<DataType, seq<DataValue>>, p: Point): map<DataType, seq<DataValue>> {
    map k | k in acc.Keys + p.data.Keys :: (if k in acc then acc[k] else []) + ValuesOf(p, k)
  }

  /** Folding one more point into the map is merging that point's data. */
  lemma DataMapPrefix(pts: seq<Point>, i: nat)
    requires i < |pts|
    ensures DataMap(pts[..i + 1]) == Merge(DataMap(pts[..i]), pts[i])
  {
    assert pts[..i + 1][..i] == pts[..i];
    forall k | k in pts[i].data.Keys && k !in AllKeys(pts[..i])
      ensures FlattenType(pts[..i], k) == []
    {
      FlattenTypeOutsideKeys(pts[..i], k);
    }
  }

  /** The inner `forEach` of `getData` over one point's data: appends each key's readings. */
  method AddPointData(acc: map<DataType, seq<DataValue>>, p: Point) returns (r: map<DataType, seq<DataValue>>)
    ensures r == Merge(acc, p)
  {
    r := acc;
    var pending := p.data.Keys;
    ghost var done: set<DataType> := {};
    while pending != {}
      invariant pending + done == p.data.Keys && pending !! done
      invariant r.Keys == acc.Keys + done
      invariant forall k :: k in r ==> r[k] == (if k in acc then acc[k] else []) + (if k in done then p.data[k] else [])
      decreases pending
    {
      var key :| key in pending;
      var existing := if key in r then r[key] else [];
      r := r[key := existing + p.data[key]];
      pending := pending - {key};
      done := done + {key};
    }
  }

  /** One more point: the flattening gains that point's readings. */
  lemma FlattenTypePrefix(pts: seq<Point>, i: nat, t: DataType)
    requires i < |pts|
    ensures FlattenType(pts[..i + 1], t) == FlattenType(pts[..i], t) + ValuesOf(pts[i], t)
  {
    assert pts[..i + 1][..i] == pts[..i];
  }

  /** `getData` and `getDataByType` agree: a key is in the map exactly when some point
      carries it, its entry is the flattening of that type, and an absent key flattens
      to nothing. */
  lemma DataMapAgreesWithFlatten(pts: seq<Point>, t: DataType)
    ensures t in DataMap(pts) <==> exists i :: 0 <= i < |pts| && t in pts[i].data
    ensures t in DataMap(pts) ==> DataMap(pts)[t] == FlattenType(pts, t)
    ensures t !in DataMap(pts) ==> FlattenType(pts, t) == []
  {
    AllKeysMembership(pts, t);
    if t !in AllKeys(pts) {
      FlattenTypeOutsideKeys(pts, t);
    }
  }

  /** One step of the averaging loop over the points from `i` on. */
  lemma PresentReadingsStep(points: seq<Point>, i: nat, t: DataType)
    requires i < |points|
    ensures var reading := Reading(points[i], t);
      var here := Present(Readings(points[i..], t));
      var rest := Present(Readings(points[i + 1..], t));
      Sum(here) == (if reading.Some? then reading.value else 0.0) + Sum(rest) &&
      |here| == (if reading.Some? then 1 else 0) + |rest|
  {
    var reading := Reading(points[i], t);
    var rest := Readings(points[i + 1..], t);
    assert points[i..][1..] == points[i + 1..];
    assert Readings(points[i..], t) == [reading] + rest;
    assert ([reading] + rest)[1..] == rest;
    if reading.Some? {
      assert Present([reading] + rest) == [reading.value] + Present(rest);
      assert ([reading.value] + Present(rest))[1..] == Present(rest);
    } else {
      assert Present([reading] + rest) == Present(rest);
    }
  }

  // ---------------------------------------------------------------------------
  // getFirstActivity, getLastActivity (event.ts:52-62)

  /** The `reduce` keeping `a.startDate < b.startDate ? a : b`: an earliest activity,
      the later one on a tie. */
  function FirstIndex(acts: seq<Activity>): (k: nat)
    requires acts != []
    ensures k < |acts|
    ensures forall j :: 0 <= j < |acts| ==> acts[k].startDate <= acts[j].startDate
    ensures forall j :: k < j < |acts| ==> acts[k].startDate < acts[j].startDate
  {
    if |acts| == 1 then 0
    else
      var n := |acts| - 1;
      var k := FirstIndex(acts[..n]);
      if acts[k].startDate < acts[n].startDate then k else n
  }

  /** The `reduce` keeping `a.startDate < b.startDate ? b : a`: a latest activity,
      the earlier one on a tie. */
  function LastIndex(acts: seq<Activity>): (k: nat)
    requires acts != []
    ensures k < |acts|
    ensures forall j :: 0 <= j < |acts| ==> acts[j].startDate <= acts[k].startDate
    ensures forall j :: 0 <= j < k ==> acts[j].startDate < acts[k].startDate
  {
    if |acts| == 1 then 0
    else
      var n := |acts| - 1;
      var k := LastIndex(acts[..n]);
      if acts[k].startDate < acts[n].startDate then n else k
  }

  // ---------------------------------------------------------------------------
  // removeActivity (event.ts:42-46)

  /** `findIndex` on activity IDs: the first match, or -1. */
  function FindIndexById(acts: seq<Activity>, id: string): (k: int)
    ensures -1 <= k < |acts|
    ensures 0 <= k ==> acts[k].id == id && forall j :: 0 <= j < k ==> acts[j].id != id
    ensures k == -1 ==> forall j :: 0 <= j < |acts| ==> acts[j].id != id
    decreases |acts|
  {
    if acts == [] then -1
    else if acts[0].id == id then 0
    else
      var k := FindIndexById(acts[1..], id);
      if k == -1 then -1 else k + 1
  }

  // ---------------------------------------------------------------------------
  // getTotalDurationInSeconds (event.ts:208-212)

  function TotalDuration(acts: seq<Activity>): real {
    if acts == [] then 0.0 else TotalDuration(acts[..|acts| - 1]) + acts[|acts| - 1].durationInSeconds
  }

  /** Durations simply add up: overlapping activities are not deduplicated. */
  lemma {:induction false} TotalDurationConcat(a: seq<Activity>, b: seq<Activity>)
    ensures TotalDuration(a + b) == TotalDuration(a) + TotalDuration(b)
  {
    if b == [] {
      assert a + b == a;
    } else {
      var b' := b[..|b| - 1];
      assert (a + b)[..|a + b| - 1] == a + b';
      assert (a + b)[|a + b| - 1] == b[|b| - 1];
      TotalDurationConcat(a, b');
    }
  }

  /** With no negative duration the total is not negative. */
  lemma {:induction false} TotalDurationNonNegative(acts: seq<Activity>)
    ensures (forall i :: 0 <= i < |acts| ==> acts[i].durationInSeconds >= 0.0) ==> TotalDuration(acts) >= 0.0
  {
    if acts != [] {
      var n := |acts| - 1;
      assert forall i :: 0 <= i < n ==> acts[..n][i] == acts[i];
      TotalDurationNonNegative(acts[..n]);
    }
  }

  // ---------------------------------------------------------------------------

  class Event {
    /** The ID inherited from `IDClass`. */
    const id: string
    /** How each activity answers `getPoints`. */
    const pointSource: PointSource
    /** The geodesy adapter's `getDistance`; the adapter itself is not part of this model. */
    const geodesyAdapter: seq<Point> -> real
    var name: Option<string>
    var activities: seq<Activity>
    var laps: seq<Lap>
    var summary: Option<Summary>

    constructor(id: string, pointSource: PointSource, geodesyAdapter: seq<Point> -> real)
      ensures this.id == id && this.pointSource == pointSource && this.geodesyAdapter == geodesyAdapter
      ensures name == None && activities == [] && laps == [] && summary == None
    {
      this.id := id;
      this.pointSource := pointSource;
      this.geodesyAdapter := geodesyAdapter;
      name := None;
      activities := [];
      laps := [];
      summary := None;
    }

    method SetName(name: string)
      modifies this`name
      ensures this.name == Some(name)
    {
      this.name := Some(name);
    }

    /** Appends at the end; nothing else changes. */
    method AddActivity(activity: Activity)
      modifies this`activities
      ensures activities == old(activities) + [activity]
      ensures GetTotalDurationInSeconds() == old(GetTotalDurationInSeconds()) + activity.durationInSeconds
    {
      TotalDurationConcat(activities, [activity]);
      assert TotalDuration([activity]) == TotalDuration([]) + activity.durationInSeconds;
      activities := activities + [activity];
    }

    /** Removes the first activity with the same ID. With no match `findIndex` gives -1
        and `splice(-1, 1)` removes the last activity instead. */
    method RemoveActivity(activityToRemove: Activity)
      modifies this`activities
      ensures var k := FindIndexById(old(activities), activityToRemove.id);
        if 0 <= k then activities == old(activities)[..k] + old(activities)[k + 1..]
        else activities == if old(activities) == [] then [] else old(activities)[..|old(activities)| - 1]
    {
      var k := FindIndexById(activities, activityToRemove.id);
      ghost var before := activities;
      activities := SpliceOne(activities, k);
      if k == -1 && before != [] {
        assert before[|before| - 1 + 1..] == [];
      }
    }

    /** None where `reduce` without an initial value would throw on an empty list. */
    function GetFirstActivity(): (r: Option<Activity>)
      reads this
      ensures r.None? <==> activities == []
      ensures r.Some? ==> r.value in activities
      ensures r.Some? ==> forall a :: a in activities ==> r.value.startDate <= a.startDate
    {
      if activities == [] then None else Some(activities[FirstIndex(activities)])
    }

    function GetLastActivity(): (r: Option<Activity>)
      reads this
      ensures r.None? <==> activities == []
      ensures r.Some? ==> r.value in activities
      ensures r.Some? ==> forall a :: a in activities ==> a.startDate <= r.value.startDate
    {
      if activities == [] then None else Some(activities[LastIndex(activities)])
    }

    /** Appends at the end; nothing else changes. */
    method AddLap(lap: Lap)
      modifies this`laps
      ensures laps == old(laps) + [lap]
    {
      laps := laps + [lap];
    }

    /** The points of the given activities, or of all the event's activities when none are
        given; an explicit empty list selects nothing. */
    function GetPoints(q: Query, activities: Option<seq<Activity>>): (r: seq<Point>)
      reads this
      ensures activities.None? ==>
        forall p :: p in r <==> exists a :: a in this.activities && p in pointSource(a, q)
      ensures activities.Some? ==>
        forall p :: p in r <==> exists a :: a in activities.value && p in pointSource(a, q)
      ensures activities == Some([]) ==> r == []
    {
      PointsOfMembers(pointSource, Selected(this.activities, activities), q);
      PointsOf(pointSource, Selected(this.activities, activities), q)
    }

    /** The points of `GetPoints` that carry a position, in order. */
    method GetPointsWithPosition(q: Query, activities: Option<seq<Activity>>) returns (r: seq<Point>)
      ensures r == Filter(GetPoints(q, activities), HasPosition)
    {
      var points := GetPoints(q, activities);
      r := [];
      var i := 0;
      while i < |points|
        invariant 0 <= i <= |points|
        invariant r == Filter(points[..i], HasPosition)
      {
        FilterPrefix(points, HasPosition, i);
        if HasPosition(points[i]) {
          r := r + [points[i]];
        }
        i := i + 1;
      }
      assert points[..i] == points;
    }

    /** Every key of every point of all activities (no activity subset), mapped to its readings. */
    method GetData(q: Query) returns (r: map<DataType, seq<DataValue>>)
      ensures r == DataMap(GetPoints(q, None))
    {
      var points := GetPoints(q, None);
      r := map[];
      var i := 0;
      while i < |points|
        invariant 0 <= i <= |points|
        invariant r == DataMap(points[..i])
      {
        DataMapPrefix(points, i);
        r := AddPointData(r, points[i]);
        i := i + 1;
      }
      assert points[..i] == points;
    }

    /** The readings of type `t` of each point, flattened in point order. */
    method GetDataByType(t: DataType, q: Query, activities: Option<seq<Activity>>) returns (r: seq<DataValue>)
      ensures r == FlattenType(GetPoints(q, activities), t)
    {
      var points := GetPoints(q, activities);
      r := [];
      var i := 0;
      while i < |points|
        invariant 0 <= i <= |points|
        invariant r == FlattenType(points[..i], t)
      {
        FlattenTypePrefix(points, i, t);
        r := r + ValuesOf(points[i], t);
        i := i + 1;
      }
      assert points[..i] == points;
    }

    /** Sum of the truthy per-point averages over a divisor that starts at 1. */
    method GetDataTypeAverage(t: DataType, q: Query, activities: Option<seq<Activity>>) returns (r: real)
      ensures r == AverageOf(Readings(GetPoints(q, activities), t))
    {
      var points := GetPoints(q, activities);
      ghost var readings := Present(Readings(points, t));
      var count := 1;
      var average := 0.0;
      var i := 0;
      while i < |points|
        invariant 0 <= i <= |points|
        invariant average + Sum(Present(Readings(points[i..], t))) == Sum(readings)
        invariant count + |Present(Readings(points[i..], t))| == 1 + |readings|
      {
        PresentReadingsStep(points, i, t);
        var reading := Reading(points[i], t);
        if reading.Some? {
          average := average + reading.value;
          count := count + 1;
        }
        i := i + 1;
      }
      assert Readings(points[i..], t) == [];
      assert average == Sum(readings) && count == |readings| + 1;
      r := average / count as real;
    }

    /** The gain walk; None where `reduce` would throw on no points. */
    method GetDataTypeGain(t: DataType, q: Query, activities: Option<seq<Activity>>,
                           precision: Option<nat>, minDiff: Option<real>) returns (r: Option<real>)
      ensures r == Total(GainRule, Defaults(precision, minDiff), Readings(GetPoints(q, activities), t))
    {
      var s := Defaults(precision, minDiff);
      var points := GetPoints(q, activities);
      if points == [] {
        return None;
      }
      var gain := 0.0;
      var rs := Readings(points, t);
      var previous := points[0];
      var i := 1;
      while i < |points|
        invariant 1 <= i <= |points|
        invariant gain + Walk(GainRule, s, Reading(previous, t), rs[i..]) == Walk(GainRule, s, rs[0], rs[1..])
      {
        var next := points[i];
        var before, after := Reading(previous, t), Reading(next, t);
        assert rs[i..] == [after] + rs[i + 1..];
        if before.None? {
          previous := next;
        } else if after.None? {
        } else {
          var p, n := before.value, after.value;
          if p + s.minDiff < n {
            gain := gain + (ToFixed(n, s.digits) - ToFixed(p, s.digits));
          }
          previous := next;
        }
        i := i + 1;
      }
      r := Some(gain);
    }

    /** The loss walk as written: a pair counts when `round(next) - minDiff < round(previous)`. */
    method GetDataTypeLoss(t: DataType, q: Query, activities: Option<seq<Activity>>,
                           precision: Option<nat>, minDiff: Option<real>) returns (r: Option<real>)
      ensures r == Total(LossRule, Defaults(precision, minDiff), Readings(GetPoints(q, activities), t))
    {
      var s := Defaults(precision, minDiff);
      var points := GetPoints(q, activities);
      if points == [] {
        return None;
      }
      var loss := 0.0;
      var rs := Readings(points, t);
      var previous := points[0];
      var i := 1;
      while i < |points|
        invariant 1 <= i <= |points|
        invariant loss + Walk(LossRule, s, Reading(previous, t), rs[i..]) == Walk(LossRule, s, rs[0], rs[1..])
      {
        var next := points[i];
        var before, after := Reading(previous, t), Reading(next, t);
        assert rs[i..] == [after] + rs[i + 1..];
        if before.None? {
          previous := next;
        } else if after.None? {
        } else {
          var p := ToFixed(before.value, s.digits);
          var n := ToFixed(after.value, s.digits);
          if n - s.minDiff < p {
            loss := loss + (p - n);
          }
          previous := next;
        }
        i := i + 1;
      }
      r := Some(loss);
    }

    /** The adapter measures exactly the positioned points of the query, in order. */
    method GetDistanceInMeters(q: Query, activities: Option<seq<Activity>>) returns (r: real)
      ensures r == geodesyAdapter(Filter(GetPoints(q, activities), HasPosition))
    {
      var positioned := GetPointsWithPosition(q, activities);
      r := geodesyAdapter(positioned);
    }

    /** The activities' own durations summed: no activities give 0, and with no negative
        duration the total is not negative. */
    function GetTotalDurationInSeconds(): (r: real)
      reads this
      ensures activities == [] ==> r == 0.0
      ensures (forall i :: 0 <= i < |activities| ==> activities[i].durationInSeconds >= 0.0) ==> r >= 0.0
    {
      TotalDurationNonNegative(activities);
      TotalDuration(activities)
    }

    method SetSummary(eventSummary: Summary)
      modifies this`summary
      ensures summary == Some(eventSummary)
    {
      summary := Some(eventSummary);
    }
  }
}
