/** The map-data derivation of the event map card
    (src/app/components/cards/event/map/agm/event.card.map.agm.component.ts): which points,
    low-satellite points and laps each selected activity contributes to the map, the
    bounding box of everything drawn, and the two mutually exclusive info windows. */
module MapCard {
  import opened Common
  import opened Seqs

  /** A point as the card's point interface presents it: its position, and its
      `NumberOfSatellites` reading (one data object or undefined). */
  datatype LibPoint = LibPoint(position: Option<Position>, satellites: Option<real>)

  /** An activity as the card uses it: `getPoints()`, `getPointsInterpolated()` and
      `getLaps()`, whose implementations are not part of this model. */
  datatype LibActivity = LibActivity(id: string, points: seq<LibPoint>, interpolated: seq<LibPoint>, laps: seq<Lap>)

  /** The event input's lap query `getPointsWithPosition(lap.startDate, lap.endDate, [activity])`,
      left uninterpreted. */
  type LapPointLookup = (Lap, LibActivity) -> seq<LibPoint>

  datatype LapWithPosition = LapWithPosition(lap: Lap, lapPoints: seq<LibPoint>, lapEndPoint: LibPoint)

  datatype MapData = MapData(
    activity: LibActivity,
    points: seq<LibPoint>,
    lowNumberOfSatellitesPoints: seq<LibPoint>,
    activityStartPoint: LibPoint,
    lapsWithPosition: seq<LapWithPosition>)

  /** The card's four boolean inputs. */
  datatype Toggles = Toggles(showAutoLaps: bool, showManualLaps: bool, showData: bool, showDataWarnings: bool)

  /** `point.getPosition()` is truthy. */
  predicate IsPositioned(p: LibPoint) {
    p.position.Some?
  }

  /** A satellite reading exists and is below 7. */
  predicate IsLowSatellite(p: LibPoint) {
    p.satellites.Some? && p.satellites.value < 7.0
  }

  /** The lap-kind test: AutoLaps only when shown, Manual laps only when shown, others always. */
  predicate LapShown(lap: Lap, showAutoLaps: bool, showManualLaps: bool) {
    !(!showAutoLaps && lap.kind == AutoLap) && !(!showManualLaps && lap.kind == Manual)
  }

  function LapKindFilter(showAutoLaps: bool, showManualLaps: bool): Lap -> bool {
    lap => LapShown(lap, showAutoLaps, showManualLaps)
  }

  /** The lap query finds at least one point. */
  function LapHasPoints(lookup: LapPointLookup, activity: LibActivity): Lap -> bool {
    lap => |lookup(lap, activity)| > 0
  }

  /** The points an activity offers the card: interpolated ones when `showData` is set. */
  function BasePoints(activity: LibActivity, showData: bool): seq<LibPoint> {
    if showData then activity.interpolated else activity.points
  }

  // ---------------------------------------------------------------------------
  // cacheNewData (component.ts:80-139)

  /** The lap `reduce`: each lap whose query finds points, with those points and the last one. */
  function LapsWithPositionOf(laps: seq<Lap>, activity: LibActivity, lookup: LapPointLookup): seq<LapWithPosition> {
    if laps == [] then []
    else
      var kept := LapsWithPositionOf(laps[..|laps| - 1], activity, lookup);
      var lap := laps[|laps| - 1];
      var lapPoints := lookup(lap, activity);
      if |lapPoints| > 0 then kept + [LapWithPosition(lap, lapPoints, lapPoints[|lapPoints| - 1])] else kept
  }

  function LapsOf(ls: seq<LapWithPosition>): (r: seq<Lap>)
    ensures |r| == |ls| && forall i :: 0 <= i < |ls| ==> r[i] == ls[i].lap
  {
    if ls == [] then [] else LapsOf(ls[..|ls| - 1]) + [ls[|ls| - 1].lap]
  }

  /** Exactly the laps whose query finds points survive, in their order. */
  lemma {:induction false} LapsWithPositionKept(laps: seq<Lap>, activity: LibActivity, lookup: LapPointLookup)
    ensures LapsOf(LapsWithPositionOf(laps, activity, lookup)) == Filter(laps, LapHasPoints(lookup, activity))
  {
    if laps != [] {
      var n := |laps| - 1;
      LapsWithPositionKept(laps[..n], activity, lookup);
      var kept := LapsWithPositionOf(laps[..n], activity, lookup);
      var lapPoints := lookup(laps[n], activity);
      assert Filter(laps, LapHasPoints(lookup, activity))
          == Filter(laps[..n], LapHasPoints(lookup, activity)) + (if |lapPoints| > 0 then [laps[n]] else []);
      if |lapPoints| > 0 {
        var lw := LapWithPosition(laps[n], lapPoints, lapPoints[|lapPoints| - 1]);
        assert (kept + [lw])[..|kept|] == kept;
        assert LapsOf(kept + [lw]) == LapsOf(kept) + [laps[n]];
      }
    }
  }

  /** Each kept lap carries its own points, which are non-empty, and the last of them as end point. */
  lemma {:induction false} LapsWithPositionPoints(laps: seq<Lap>, activity: LibActivity, lookup: LapPointLookup)
    ensures forall lw :: lw in LapsWithPositionOf(laps, activity, lookup) ==>
      lw.lapPoints == lookup(lw.lap, activity) && |lw.lapPoints| > 0 &&
      lw.lapEndPoint == lw.lapPoints[|lw.lapPoints| - 1]
  {
    if laps != [] {
      LapsWithPositionPoints(laps[..|laps| - 1], activity, lookup);
    }
  }

  /** The map entry of one activity, or None when it has no positioned point. */
  function EntryFor(activity: LibActivity, toggles: Toggles, lookup: LapPointLookup): Option<MapData> {
    var points := Filter(BasePoints(activity, toggles.showData), IsPositioned);
    var low := if toggles.showDataWarnings then Filter(points, IsLowSatellite) else [];
    if points == [] then None
    else
      var laps := Filter(activity.laps, LapKindFilter(toggles.showAutoLaps, toggles.showManualLaps));
      Some(MapData(activity, points, low, points[0], LapsWithPositionOf(laps, activity, lookup)))
  }

  /** The activities that have at least one positioned point to draw. */
  function HasPositionedPoints(showData: bool): LibActivity -> bool {
    activity => Filter(BasePoints(activity, showData), IsPositioned) != []
  }

  /** The `forEach` over the selected activities, pushing each entry that exists. */
  function MapDataOf(acts: seq<LibActivity>, toggles: Toggles, lookup: LapPointLookup): seq<MapData> {
    if acts == [] then []
    else
      var entries := MapDataOf(acts[..|acts| - 1], toggles, lookup);
      match EntryFor(acts[|acts| - 1], toggles, lookup)
      case Some(e) => entries + [e]
      case None => entries
  }

  function ActivitiesOf(entries: seq<MapData>): (r: seq<LibActivity>)
    ensures |r| == |entries| && forall i :: 0 <= i < |entries| ==> r[i] == entries[i].activity
  {
    if entries == [] then [] else ActivitiesOf(entries[..|entries| - 1]) + [entries[|entries| - 1].activity]
  }

  /** One entry per selected activity that has positioned points, in selection order,
      and every entry is that activity's own entry. */
  lemma {:induction false} MapDataFollowsSelection(acts: seq<LibActivity>, toggles: Toggles, lookup: LapPointLookup)
    ensures ActivitiesOf(MapDataOf(acts, toggles, lookup)) == Filter(acts, HasPositionedPoints(toggles.showData))
    ensures forall e :: e in MapDataOf(acts, toggles, lookup) ==> EntryFor(e.activity, toggles, lookup) == Some(e)
  {
    if acts != [] {
      var n := |acts| - 1;
      MapDataFollowsSelection(acts[..n], toggles, lookup);
      var entries := MapDataOf(acts[..n], toggles, lookup);
      match EntryFor(acts[n], toggles, lookup)
      case Some(e) =>
        assert (entries + [e])[..|entries|] == entries;
      case None =>
    }
  }

  /** What each entry holds: its positioned points (non-empty, order kept), the first of them
      as start point, the low-satellite ones only with warnings on, and the laps of a shown
      kind whose query finds points, in their order. */
  lemma EntryContents(activity: LibActivity, toggles: Toggles, lookup: LapPointLookup, e: MapData)
    requires EntryFor(activity, toggles, lookup) == Some(e)
    ensures e.activity == activity
    ensures e.points == Filter(BasePoints(activity, toggles.showData), IsPositioned) && e.points != []
    ensures e.activityStartPoint == e.points[0]
    ensures !toggles.showDataWarnings ==> e.lowNumberOfSatellitesPoints == []
    ensures toggles.showDataWarnings ==> e.lowNumberOfSatellitesPoints == Filter(e.points, IsLowSatellite)
    ensures forall p :: p in e.lowNumberOfSatellitesPoints ==> IsPositioned(p) && IsLowSatellite(p)
    ensures LapsOf(e.lapsWithPosition)
         == Filter(Filter(activity.laps, LapKindFilter(toggles.showAutoLaps, toggles.showManualLaps)), LapHasPoints(lookup, activity))
    ensures forall lw :: lw in e.lapsWithPosition ==>
      LapShown(lw.lap, toggles.showAutoLaps, toggles.showManualLaps) &&
      (!toggles.showAutoLaps ==> lw.lap.kind != AutoLap) &&
      (!toggles.showManualLaps ==> lw.lap.kind != Manual) &&
      lw.lapPoints == lookup(lw.lap, activity) && |lw.lapPoints| > 0 &&
      lw.lapEndPoint == lw.lapPoints[|lw.lapPoints| - 1]
  {
    var laps := Filter(activity.laps, LapKindFilter(toggles.showAutoLaps, toggles.showManualLaps));
    LapsWithPositionKept(laps, activity, lookup);
    LapsWithPositionPoints(laps, activity, lookup);
    forall lw | lw in e.lapsWithPosition
      ensures LapShown(lw.lap, toggles.showAutoLaps, toggles.showManualLaps)
    {
      var i :| 0 <= i < |e.lapsWithPosition| && e.lapsWithPosition[i] == lw;
      assert lw.lap == LapsOf(e.lapsWithPosition)[i];
      assert lw.lap in Filter(laps, LapHasPoints(lookup, activity));
    }
  }

  /** The laps shown by kind whose query finds points. */
  function LapKept(toggles: Toggles, lookup: LapPointLookup, activity: LibActivity): Lap -> bool {
    lap => LapShown(lap, toggles.showAutoLaps, toggles.showManualLaps) && |lookup(lap, activity)| > 0
  }

  /** The kind filter followed by the points filter is one filter by both tests. */
  lemma EntryLapsOneFilter(activity: LibActivity, toggles: Toggles, lookup: LapPointLookup, e: MapData)
    requires EntryFor(activity, toggles, lookup) == Some(e)
    ensures LapsOf(e.lapsWithPosition) == Filter(activity.laps, LapKept(toggles, lookup, activity))
  {
    EntryContents(activity, toggles, lookup, e);
    FilterFilter(activity.laps, LapKindFilter(toggles.showAutoLaps, toggles.showManualLaps),
      LapHasPoints(lookup, activity), LapKept(toggles, lookup, activity));
  }

  /** A lap of any other kind passes the kind filter whatever the toggles. */
  lemma OtherLapsAlwaysShown(lap: Lap, showAutoLaps: bool, showManualLaps: bool)
    requires lap.kind.OtherLap?
    ensures LapKindFilter(showAutoLaps, showManualLaps)(lap)
  {
  }

  // ---------------------------------------------------------------------------
  // getBounds (component.ts:141-178)

  datatype LatLngBounds = LatLngBounds(east: real, west: real, north: real, south: real)

  function Longitude(p: LibPoint): real {
    if p.position.Some? then p.position.value.longitudeDegrees else 0.0
  }

  function Latitude(p: LibPoint): real {
    if p.position.Some? then p.position.value.latitudeDegrees else 0.0
  }

  /** The `reduce` concatenating every entry's points. */
  function AllPoints(entries: seq<MapData>): seq<LibPoint> {
    if entries == [] then [] else AllPoints(entries[..|entries| - 1]) + entries[|entries| - 1].points
  }

  /** The `reduce` keeping `key(acc) < key(point) ? point : acc`: a point of greatest key. */
  function MostBy(pts: seq<LibPoint>, key: LibPoint -> real): (p: LibPoint)
    requires pts != []
    ensures p in pts
    ensures forall q :: q in pts ==> key(q) <= key(p)
  {
    if |pts| == 1 then pts[0]
    else
      var acc := MostBy(pts[..|pts| - 1], key);
      var point := pts[|pts| - 1];
      assert pts == pts[..|pts| - 1] + [point];
      if key(acc) < key(point) then point else acc
  }

  /** The `reduce` keeping `key(acc) > key(point) ? point : acc`: a point of least key. */
  function LeastBy(pts: seq<LibPoint>, key: LibPoint -> real): (p: LibPoint)
    requires pts != []
    ensures p in pts
    ensures forall q :: q in pts ==> key(p) <= key(q)
  {
    if |pts| == 1 then pts[0]
    else
      var acc := LeastBy(pts[..|pts| - 1], key);
      var point := pts[|pts| - 1];
      assert pts == pts[..|pts| - 1] + [point];
      if key(acc) > key(point) then point else acc
  }

  /** Every point drawn has a position (getBounds reads positions unguarded). */
  ghost predicate AllPositioned(entries: seq<MapData>) {
    forall p :: p in AllPoints(entries) ==> IsPositioned(p)
  }

  /** The zero box for no points; otherwise the tightest box around every point, each side
      attained by some point. */
  function BoundsOf(entries: seq<MapData>): (b: LatLngBounds)
    requires AllPositioned(entries)
    ensures AllPoints(entries) == [] ==> b == LatLngBounds(0.0, 0.0, 0.0, 0.0)
    ensures forall p :: p in AllPoints(entries) ==>
      b.west <= Longitude(p) <= b.east && b.south <= Latitude(p) <= b.north
    ensures AllPoints(entries) != [] ==>
      (exists p :: p in AllPoints(entries) && Longitude(p) == b.east) &&
      (exists p :: p in AllPoints(entries) && Longitude(p) == b.west) &&
      (exists p :: p in AllPoints(entries) && Latitude(p) == b.north) &&
      (exists p :: p in AllPoints(entries) && Latitude(p) == b.south)
  {
    var pts := AllPoints(entries);
    if pts == [] then LatLngBounds(0.0, 0.0, 0.0, 0.0)
    else
      var mostEast := MostBy(pts, Longitude);
      var mostWest := LeastBy(pts, Longitude);
      var mostNorth := MostBy(pts, Latitude);
      var mostSouth := LeastBy(pts, Latitude);
      LatLngBounds(Longitude(mostEast), Longitude(mostWest), Latitude(mostNorth), Latitude(mostSouth))
  }

  /** Everything `cacheNewData` produces can be bounded: all its points are positioned. */
  lemma {:induction false} MapDataOfPositioned(acts: seq<LibActivity>, toggles: Toggles, lookup: LapPointLookup)
    ensures AllPositioned(MapDataOf(acts, toggles, lookup))
  {
    if acts != [] {
      var n := |acts| - 1;
      MapDataOfPositioned(acts[..n], toggles, lookup);
      var entries := MapDataOf(acts[..n], toggles, lookup);
      match EntryFor(acts[n], toggles, lookup)
      case Some(e) =>
        assert (entries + [e])[..|entries|] == entries;
        assert AllPoints(entries + [e]) == AllPoints(entries) + e.points;
      case None =>
    }
  }

  // ---------------------------------------------------------------------------

  class EventCardMap {
    var selectedActivities: seq<LibActivity>
    var showAutoLaps: bool
    var showManualLaps: bool
    var showData: bool
    var showDataWarnings: bool
    /** How the event input answers the lap query. */
    var eventLapPoints: LapPointLookup
    var mapData: seq<MapData>
    var openedLapMarkerInfoWindow: Option<Lap>
    var openedActivityStartMarkerInfoWindow: Option<LibActivity>

    /** The drawn data can be bounded, and at most one info window is open. */
    ghost predicate Valid()
      reads this
    {
      AllPositioned(mapData) &&
      (openedLapMarkerInfoWindow.None? || openedActivityStartMarkerInfoWindow.None?)
    }

    /** The inputs' declared defaults; no data and no window yet. */
    constructor(selectedActivities: seq<LibActivity>, eventLapPoints: LapPointLookup)
      ensures Valid()
      ensures this.selectedActivities == selectedActivities && this.eventLapPoints == eventLapPoints
      ensures showAutoLaps && !showManualLaps && !showData && !showDataWarnings
      ensures mapData == [] && openedLapMarkerInfoWindow == None && openedActivityStartMarkerInfoWindow == None
    {
      this.selectedActivities := selectedActivities;
      this.eventLapPoints := eventLapPoints;
      showAutoLaps := true;
      showManualLaps := false;
      showData := false;
      showDataWarnings := false;
      mapData := [];
      openedLapMarkerInfoWindow := None;
      openedActivityStartMarkerInfoWindow := None;
    }

    /** The map entries for the current inputs. */
    method CacheNewData() returns (r: seq<MapData>)
      ensures r == MapDataOf(selectedActivities,
        Toggles(showAutoLaps, showManualLaps, showData, showDataWarnings), eventLapPoints)
    {
      r := [];
      var i := 0;
      while i < |selectedActivities|
        invariant 0 <= i <= |selectedActivities|
        invariant r == MapDataOf(selectedActivities[..i],
          Toggles(showAutoLaps, showManualLaps, showData, showDataWarnings), eventLapPoints)
      {
        var entry := ActivityEntry(selectedActivities[i]);
        assert selectedActivities[..i + 1][..i] == selectedActivities[..i];
        if entry.Some? {
          r := r + [entry.value];
        }
        i := i + 1;
      }
      assert selectedActivities[..i] == selectedActivities;
    }

    /** The `forEach` callback for one activity: None where it returns early. */
    method ActivityEntry(activity: LibActivity) returns (r: Option<MapData>)
      ensures r == EntryFor(activity,
        Toggles(showAutoLaps, showManualLaps, showData, showDataWarnings), eventLapPoints)
    {
      var activityPoints := if showData then activity.interpolated else activity.points;
      activityPoints := Filter(activityPoints, IsPositioned);
      var lowNumberOfSatellitesPoints := [];
      if showDataWarnings {
        lowNumberOfSatellitesPoints := Filter(activityPoints, IsLowSatellite);
      }
      if |activityPoints| == 0 {
        return None;
      }
      var laps := Filter(activity.laps, LapKindFilter(showAutoLaps, showManualLaps));
      var lapsWithPosition := LapsWithPosition(laps, activity);
      r := Some(MapData(activity, activityPoints, lowNumberOfSatellitesPoints, activityPoints[0], lapsWithPosition));
    }

    /** The lap `reduce`: each lap whose query finds points, with its points and end point. */
    method LapsWithPosition(laps: seq<Lap>, activity: LibActivity) returns (r: seq<LapWithPosition>)
      ensures r == LapsWithPositionOf(laps, activity, eventLapPoints)
    {
      r := [];
      var j := 0;
      while j < |laps|
        invariant 0 <= j <= |laps|
        invariant r == LapsWithPositionOf(laps[..j], activity, eventLapPoints)
      {
        var lap := laps[j];
        var lapPoints := eventLapPoints(lap, activity);
        assert laps[..j + 1][..j] == laps[..j];
        if |lapPoints| > 0 {
          r := r + [LapWithPosition(lap, lapPoints, lapPoints[|lapPoints| - 1])];
        }
        j := j + 1;
      }
      assert laps[..j] == laps;
    }

    /** The data-input part of `ngOnChanges`: rebuild the entries when an input changed. */
    method OnChanges(dataInputChanged: bool)
      requires Valid()
      modifies this`mapData
      ensures Valid()
      ensures dataInputChanged ==> mapData == MapDataOf(selectedActivities,
        Toggles(showAutoLaps, showManualLaps, showData, showDataWarnings), eventLapPoints)
      ensures !dataInputChanged ==> mapData == old(mapData)
    {
      if dataInputChanged {
        mapData := CacheNewData();
        MapDataOfPositioned(selectedActivities,
          Toggles(showAutoLaps, showManualLaps, showData, showDataWarnings), eventLapPoints);
      }
    }

    /** The box around every drawn point, each side attained; the zero box when nothing is drawn. */
    function GetBounds(): (b: LatLngBounds)
      reads this
      requires AllPositioned(mapData)
      ensures AllPoints(mapData) == [] ==> b == LatLngBounds(0.0, 0.0, 0.0, 0.0)
      ensures forall p :: p in AllPoints(mapData) ==>
        b.west <= Longitude(p) <= b.east && b.south <= Latitude(p) <= b.north
      ensures AllPoints(mapData) != [] ==>
        (exists p :: p in AllPoints(mapData) && Longitude(p) == b.east) &&
        (exists p :: p in AllPoints(mapData) && Longitude(p) == b.west) &&
        (exists p :: p in AllPoints(mapData) && Latitude(p) == b.north) &&
        (exists p :: p in AllPoints(mapData) && Latitude(p) == b.south)
    {
      BoundsOf(mapData)
    }

    /** Opens the lap window and closes the activity-start window. */
    method OpenLapMarkerInfoWindow(lap: Lap)
      requires Valid()
      modifies this`openedLapMarkerInfoWindow, this`openedActivityStartMarkerInfoWindow
      ensures Valid()
      ensures openedLapMarkerInfoWindow == Some(lap) && openedActivityStartMarkerInfoWindow == None
    {
      openedLapMarkerInfoWindow := Some(lap);
      openedActivityStartMarkerInfoWindow := None;
    }

    /** Opens the activity-start window and closes the lap window. */
    method OpenActivityStartMarkerInfoWindow(activity: LibActivity)
      requires Valid()
      modifies this`openedLapMarkerInfoWindow, this`openedActivityStartMarkerInfoWindow
      ensures Valid()
      ensures openedActivityStartMarkerInfoWindow == Some(activity) && openedLapMarkerInfoWindow == None
    {
      openedActivityStartMarkerInfoWindow := Some(activity);
      openedLapMarkerInfoWindow := None;
    }
  }
}
