/** A recorded point as the event aggregate sees it. Its own code (position lookup,
    per-type data, per-type average) is not part of this model: the point is a value
    that carries those answers. */
module Points {
  import opened Common

  /** One typed sensor reading. */
  datatype DataValue = DataValue(kind: DataType, value: real)

  /** A point: its position if it has one, its readings grouped by type, and the
      per-type average that `Point.getDataTypeAverage` would return (absent = undefined). */
  datatype Point = Point(
    position: Option<Position>,
    data: map<DataType, seq<DataValue>>,
    averages: map<DataType, real>)

  /** `point.getPosition()` is truthy. */
  predicate HasPosition(p: Point) {
    p.position.Some?
  }

  /** `point.getDataByType(t)`: the point's readings of type `t`, empty when it has none. */
  function ValuesOf(p: Point, t: DataType): seq<DataValue> {
    if t in p.data then p.data[t] else []
  }

  /** The per-type average as the aggregate's `!point.getDataTypeAverage(t)` tests see it:
      an absent average and an average of exactly 0 are both falsy, so both read as missing. */
  function Reading(p: Point, t: DataType): Option<real> {
    if t in p.averages && p.averages[t] != 0.0 then Some(p.averages[t]) else None
  }

  /** The readings of type `t` along a point sequence, one per point, in order. */
  function Readings(pts: seq<Point>, t: DataType): (r: seq<Option<real>>)
    ensures |r| == |pts|
    ensures forall i :: 0 <= i < |pts| ==> r[i] == Reading(pts[i], t)
  {
    if pts == [] then [] else [Reading(pts[0], t)] + Readings(pts[1..], t)
  }

  /** A per-point average of exactly 0 is read as if the point had no average for that type,
      so average, gain and loss cannot tell the two apart. */
  lemma ZeroAverageIsMissing(pts: seq<Point>, i: nat, t: DataType)
    requires i < |pts| && t in pts[i].averages && pts[i].averages[t] == 0.0
    ensures Readings(pts[i := pts[i].(averages := pts[i].averages - {t})], t) == Readings(pts, t)
  {
    var pts' := pts[i := pts[i].(averages := pts[i].averages - {t})];
    assert Reading(pts'[i], t) == None == Reading(pts[i], t);
    assert forall j :: 0 <= j < |pts| ==> Readings(pts', t)[j] == Readings(pts, t)[j];
  }
}
