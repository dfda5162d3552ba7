# Event aggregate and event map card

A Dafny model of two parts of a fitness-activity web application:

- **The event aggregate** (`Event` in `src/app/entities/events/event.ts`). An event holds an ordered list of activities, a list of laps, a name and a summary. Its queries gather the activities' points and derive per-type data, averages, elevation-style gain and loss, distance and total duration from them.
- **The map data of the event map card** (`src/app/components/cards/event/map/agm/event.card.map.agm.component.ts`). For each selected activity the card works out the points to draw, the low-satellite warning points, the start point and the laps to mark. It also computes the bounding box of all drawn points and keeps at most one of its two info windows open.

Modules:

- `Common`: `Option`, positions, laps and lap types.
- `Seqs`: the order-preserving filter that the source's `filter` calls and push-if `reduce` loops perform, plus JavaScript `splice(start, 1)`.
- `Points`: a point as the aggregate sees it. It carries a position, readings by type, and per-type averages.
- `Statistics`: the gain, loss and average folds over a sequence of per-point readings. It includes `toFixed`, rounding half away from zero on exact decimals.
- `Events`: the `Event` class. Its fields are updated in place by its mutators, and its query methods are loops proved against specification functions.
- `MapCard`: the card's `cacheNewData` as a loop proved against a specification function, `getBounds` as folds, and the info-window setters on an `EventCardMap` class.

Calls into code the model does not include are parameters of the model. These are `activity.getPoints(start, end, step)` (the `pointSource` of an `Event`), the geodesy adapter's `getDistance`, and the event's lap query used by the map card. JavaScript truthiness is written out:

- A per-point average of 0 reads as missing, like an absent one (`Points.ZeroAverageIsMissing`).
- `precision || 1` and `minDiff || 1.5` replace 0 as well as an absent argument (`Statistics.DefaultsFalsy`).
- `reduce` without an initial value throws on an empty array. The gain and loss methods and `getFirstActivity`/`getLastActivity` therefore return `None` there.

Take the series of averages [100, 100.2, 103, 102.9, 106] with default settings. Under a rule where a move below the threshold keeps the baseline, this series would give a gain of 6.0 and a loss of 0.0. The code gives a gain of 5.9 and a loss of −0.1. Its baseline moves on to every present reading, and its loss test also admits small rises. The model follows the code (`Statistics.DefaultSeriesExample`).

## Model

| member | source | states |
|---|---|---|
| Seqs.SpliceOne | src/app/entities/events/event.ts:43-45 | `splice(start, 1)`: a start inside the list removes that element; a negative start counts back from the end, and one before the start removes the first element; a start past the end, or an empty list, removes nothing |
| Seqs.FilterCount | src/app/entities/events/event.ts:87-92 | the push-if loop keeps each element that passes the test exactly as often as it occurs, and drops every element that fails |
| Seqs.FilterConcat | src/app/entities/events/event.ts:87-92 | filtering a concatenation is the concatenation of the filtered parts, so relative order is kept |
| Seqs.FilterFilter | src/app/components/cards/event/map/agm/event.card.map.agm.component.ts:106-126 | a filter followed by a second filter is one filter by the conjunction of both tests (lap kind, then points found) |
| Points.ZeroAverageIsMissing | src/app/entities/events/event.ts:142-145 | a point whose average for the type is exactly 0 yields the same readings as the same point with no average for that type, so average, gain and loss treat the two alike (`!0` is true) |
| Points.Readings | src/app/entities/events/event.ts:141-148 | one reading slot per point, in point order |
| Statistics.DefaultsFalsy | src/app/entities/events/event.ts:158-159 | an explicit precision of 0 and minDiff of 0 give the same settings as absent ones: precision 1, minDiff 1.5 |
| Statistics.ToFixedRounds | src/app/entities/events/event.ts:169 | the result is a whole number of units of the last kept decimal, keeps the sign, lies within half a unit of the value, and a tie is rounded away from zero (so it is the nearest such number) |
| Statistics.ToFixedExamples | src/app/entities/events/event.ts:169 | 2.25 and −2.25 round to 2.3 and −2.3 at one decimal; 100.04 rounds to 100.0 |
| Statistics.ToFixedMonotone | src/app/entities/events/event.ts:169 | rounding with `toFixed` never reverses the order of two values |
| Statistics.ToFixedOdd | src/app/entities/events/event.ts:192-193 | rounding commutes with negation |
| Statistics.WalkIsPairsSum | src/app/entities/events/event.ts:161-172 | the reduce walk scores exactly the consecutive pairs of present readings: a missing reading neither resets nor advances the baseline |
| Statistics.TotalIsPairsSum | src/app/entities/events/event.ts:185-196 | for points, gain or loss equals the reference sum of per-pair steps over the present readings |
| Statistics.FewReadingsGiveZero | src/app/entities/events/event.ts:156-178 | a non-empty point list with fewer than two present readings gives 0 |
| Statistics.GainNonNegative | src/app/entities/events/event.ts:168-169 | with a non-negative threshold the gain is defined and never negative for any non-empty point list |
| Statistics.DefaultSeriesExample | src/app/entities/events/event.ts:156-202 | for [100, 100.2, 103, 102.9, 106] with defaults: gain 5.9, loss −0.1 |
| Statistics.LossAsWrittenCountsSmallRises | src/app/entities/events/event.ts:192-193 | the loss test as written admits a rounded rise smaller than minDiff, and that pair adds a negative amount |
| Statistics.LossAsWrittenNegative | src/app/entities/events/event.ts:180-202 | readings 100 then 100.2 with defaults give a loss of −0.2 |
| Statistics.IntendedLossIsMirroredGain | src/app/entities/events/event.ts:180-202 | the corrected loss of a series is the gain of the negated series |
| Statistics.IntendedLossNonNegative | src/app/entities/events/event.ts:180-202 | with a non-negative threshold the corrected loss is defined and never negative |
| Statistics.AverageAsWrittenScalesMean | src/app/entities/events/event.ts:138-153 | with n ≥ 1 present readings, the average as written is their mean times n/(n+1) |
| Statistics.AverageAsWrittenOfNothing | src/app/entities/events/event.ts:138-153 | with no present reading the average as written is 0, while the mean is undefined |
| Statistics.AverageAsWrittenOfConstant | src/app/entities/events/event.ts:140-153 | n readings all equal to a non-zero v average to n·v/(n+1), never to v |
| Statistics.AverageAsWrittenExample | src/app/entities/events/event.ts:138-153 | two readings of 10 give 20/3 as written, against a mean of 10 |
| Statistics.MeanOfConstant | src/app/entities/events/event.ts:138-153 | the corrected average of readings all equal to v is v |
| Statistics.MeanBounds | src/app/entities/events/event.ts:138-153 | the corrected average lies between any lower and any upper bound of the present readings |
| Events.Event.GetPoints | src/app/entities/events/event.ts:72-82 | with no activity list, a point is returned exactly when one of the event's activities yields it; with a list, exactly when an activity of that list yields it, so an explicit empty list gives no points (`[]` is truthy); order follows PointsOfConcat |
| Events.PointsOfMembership | src/app/entities/events/event.ts:72-82 | a point is returned exactly when some selected activity yields it for the query |
| Events.PointsOfConcat | src/app/entities/events/event.ts:72-82 | the points of two activity lists joined are the first list's points followed by the second's |
| Events.PositionedPointsOfConcat | src/app/entities/events/event.ts:84-98 | positioned points keep activity order across the selection |
| Events.PositionedPointsExact | src/app/entities/events/event.ts:84-98 | each positioned point of the query is kept as often as it occurs; no point without position is kept |
| Events.FlattenTypeConcat | src/app/entities/events/event.ts:122-136 | the readings of a type over joined point lists are the readings of each part, in order |
| Events.AllKeysMembership | src/app/entities/events/event.ts:100-120 | a type key is collected exactly when some point carries it |
| Events.DataMapAgreesWithFlatten | src/app/entities/events/event.ts:100-136 | getData has a key exactly when some point carries it; its entry equals getDataByType for that key over all activities; a key no point carries gives no readings |
| Events.FirstIndex | src/app/entities/events/event.ts:52-56 | the reduce picks an activity with the earliest start date; on a tie the later activity in the list wins |
| Events.LastIndex | src/app/entities/events/event.ts:58-62 | the reduce picks an activity with the latest start date; on a tie the earlier activity in the list wins |
| Events.FindIndexById | src/app/entities/events/event.ts:43-45 | `findIndex` on IDs: the first index with an equal ID, or −1 when no activity has it |
| Events.TotalDurationConcat | src/app/entities/events/event.ts:208-212 | durations add up over joined activity lists (no overlap correction) |
| Events.Event.constructor | src/app/entities/events/event.ts:12-24 | a new event has no name, no activities, no laps and no summary, and keeps its geodesy adapter |
| Events.Event.SetName | src/app/entities/events/event.ts:30-32 | the name becomes the given one |
| Events.Event.AddActivity | src/app/entities/events/event.ts:38-40 | the activity is appended at the end; nothing else changes; the total duration grows by the activity's own duration |
| Events.Event.RemoveActivity | src/app/entities/events/event.ts:42-46 | the first activity with the same ID is removed; with no match the last activity is removed (splice at −1); an empty list stays empty |
| Events.Event.GetFirstActivity | src/app/entities/events/event.ts:52-56 | none exactly for no activities; otherwise one of the activities, starting no later than any other |
| Events.Event.GetLastActivity | src/app/entities/events/event.ts:58-62 | none exactly for no activities; otherwise one of the activities, starting no earlier than any other |
| Events.Event.AddLap | src/app/entities/events/event.ts:64-66 | the lap is appended at the end; nothing else changes |
| Events.Event.GetPointsWithPosition | src/app/entities/events/event.ts:84-98 | the result is the order-preserving positioned subsequence of the query's points |
| Events.DataMapPrefix | src/app/entities/events/event.ts:102-114 | folding one more point into the map merges that point's keys and appends its readings after the earlier points' readings |
| Events.AddPointData | src/app/entities/events/event.ts:104-111 | every key of the point is present afterwards, with the point's readings appended after those already collected; keys the point lacks are untouched |
| Events.Event.GetData | src/app/entities/events/event.ts:100-120 | the result maps every key of every point of all activities to that key's readings in point order (activity subset ignored) |
| Events.Event.GetDataByType | src/app/entities/events/event.ts:122-136 | the result is the readings of the type, point by point in order |
| Events.Event.GetDataTypeAverage | src/app/entities/events/event.ts:138-154 | the result is the sum of the truthy per-point averages divided by one more than their number |
| Events.Event.GetDataTypeGain | src/app/entities/events/event.ts:156-178 | the result is the gain walk over the points' readings with the defaulted settings, none for no points |
| Events.Event.GetDataTypeLoss | src/app/entities/events/event.ts:180-202 | the result is the loss walk as written over the points' readings with the defaulted settings, none for no points |
| Events.Event.GetDistanceInMeters | src/app/entities/events/event.ts:204-206 | the adapter measures exactly the positioned points of the query, in order |
| Events.Event.GetTotalDurationInSeconds | src/app/entities/events/event.ts:208-212 | no activities give 0; with no negative duration the total is not negative; joined lists add up (TotalDurationConcat) |
| Events.Event.SetSummary | src/app/entities/events/event.ts:214-216 | the summary becomes the given one |
| MapCard.LapsWithPositionKept | src/app/components/cards/event/map/agm/event.card.map.agm.component.ts:116-126 | exactly the laps whose query finds points are kept, in their order; each carries its own points and the last of them as end point |
| MapCard.LapsWithPositionPoints | src/app/components/cards/event/map/agm/event.card.map.agm.component.ts:116-126 | each kept lap carries a non-empty list of the points its query finds, and the last of them as its end point |
| MapCard.MapDataFollowsSelection | src/app/components/cards/event/map/agm/event.card.map.agm.component.ts:83-135 | one entry per selected activity with positioned points, in selection order; every entry is that activity's own |
| MapCard.EntryContents | src/app/components/cards/event/map/agm/event.card.map.agm.component.ts:84-134 | an entry's points are the non-empty positioned subsequence of the activity's points (interpolated ones with showData); the start point is the first of them; low-satellite points are empty without warnings and otherwise the positioned points with fewer than 7 satellites; no AutoLap without showAutoLaps, no Manual lap without showManualLaps |
| MapCard.EntryLapsOneFilter | src/app/components/cards/event/map/agm/event.card.map.agm.component.ts:106-126 | an entry's laps are exactly the activity's laps of a shown kind whose query finds points, in order: the two filters in one |
| MapCard.OtherLapsAlwaysShown | src/app/components/cards/event/map/agm/event.card.map.agm.component.ts:106-115 | a lap of any other type passes the kind filter whatever the toggles |
| MapCard.MostBy | src/app/components/cards/event/map/agm/event.card.map.agm.component.ts:151-155 | the reduce returns one of the points, with a key no smaller than any other point's |
| MapCard.LeastBy | src/app/components/cards/event/map/agm/event.card.map.agm.component.ts:156-161 | the reduce returns one of the points, with a key no greater than any other point's |
| MapCard.BoundsOf | src/app/components/cards/event/map/agm/event.card.map.agm.component.ts:141-178 | no points give the zero box; otherwise every drawn point lies inside the box and each of east, west, north and south is attained by some point |
| MapCard.MapDataOfPositioned | src/app/components/cards/event/map/agm/event.card.map.agm.component.ts:90-90 | every point the card draws has a position, so the bounds can always be computed |
| MapCard.EventCardMap.constructor | src/app/components/cards/event/map/agm/event.card.map.agm.component.ts:37-45 | auto laps shown, manual laps, data and warnings hidden; no map data and no window open |
| MapCard.EventCardMap.CacheNewData | src/app/components/cards/event/map/agm/event.card.map.agm.component.ts:80-139 | the result is the map data that the selection and toggles define (see MapDataFollowsSelection, EntryContents) |
| MapCard.EventCardMap.ActivityEntry | src/app/components/cards/event/map/agm/event.card.map.agm.component.ts:84-134 | the entry built for one activity: none when it has no positioned points, else the entry its points, toggles and laps define |
| MapCard.EventCardMap.LapsWithPosition | src/app/components/cards/event/map/agm/event.card.map.agm.component.ts:116-126 | the loop keeps exactly the laps whose query finds points, in order, each with its points and end point |
| MapCard.EventCardMap.OnChanges | src/app/components/cards/event/map/agm/event.card.map.agm.component.ts:62-70 | a change to a data input rebuilds the map data; otherwise it is kept; the drawn points stay positioned |
| MapCard.EventCardMap.GetBounds | src/app/components/cards/event/map/agm/event.card.map.agm.component.ts:141-178 | with nothing drawn the zero box; otherwise every drawn point lies inside the box and each side is attained by a drawn point (BoundsOf) |
| MapCard.EventCardMap.OpenLapMarkerInfoWindow | src/app/components/cards/event/map/agm/event.card.map.agm.component.ts:180-183 | the lap window is set and the activity-start window cleared, so at most one is open |
| MapCard.EventCardMap.OpenActivityStartMarkerInfoWindow | src/app/components/cards/event/map/agm/event.card.map.agm.component.ts:185-188 | the activity-start window is set and the lap window cleared, so at most one is open |

## Left out

- Logging, `performance.now()` timing and `toJSON` (event.ts:222-236): output only, with no effect on results.
- `getName`, `getSummary`, `getGeodesyAdapter`: plain field reads, modelled as the fields themselves.
- Aliasing of the activity and lap arrays: `getActivities()` and `getLaps()` return the live arrays, and `removeActivity` splices the activity array in place (event.ts:43, 48-50), so a caller holding the array sees later additions and removals. The model's `seq` fields are values; it does not capture that sharing.
- The geodesy adapter's distance computation and the default `GeoLibAdapter`: foreign library code. The adapter is a function parameter of the event.
- How an activity selects its points for a start date, end date and step: activity code that is not part of this model. It is the event's `pointSource` parameter.
- Events.Event.GetData: the model returns a map and does not capture the insertion order of the JavaScript `Map`'s keys.
- Statistics.ToFixed: models `Number(x.toFixed(p))` on exact decimals, rounding half away from zero. It does not model binary floating-point representation error, nor the RangeError thrown for precisions above 100.
- Statistics.Defaults: the precision is a natural number. A negative precision survives `precision || 1` and makes `toFixed` throw a RangeError, and a fractional precision is truncated by `toFixed`; neither case is modelled.
- Events.Event.GetDataTypeGain: on an empty point list `reduce` throws a TypeError. The model returns None instead and does not model the exception; the same holds for `GetDataTypeLoss`, `GetFirstActivity` and `GetLastActivity`.
- Sums of readings and durations are exact reals: IEEE-754 rounding of `+` and `/` is not modelled. Reals have no NaN either, so a NaN average, precision or minDiff, which `!x` also treats as missing (event.ts:142, 158-159, 162-165), is not modelled.
- MapCard.EventCardMap.CacheNewData: the event's lap query `getPointsWithPosition(lap.startDate, lap.endDate, [activity])` is a function parameter. It is not tied to `Events.Event.GetPointsWithPosition`, because the card sees activities only through the library's activity interface.
- The map card's resize handling, `triggerResize`/`fitBounds`, change detection, `lineClick` (nearest point through the geodesy library) and `getMapValuesAsArray`: user-interface and asynchronous glue.
- Activity IDs are plain strings; the ID generation of the ID base class is not part of this model.

## Findings

| source | as written | input that shows it | evidently intended | confidence | as-written member | corrected member |
|---|---|---|---|---|---|---|
| src/app/entities/events/event.ts:140-153 | the divisor `count` starts at 1, so the average is the sum of the present readings over n + 1 | two points whose averages are both 10 give 20/3 | the mean, sum over n, undefined when no point has a reading | not executed | Statistics.AverageAsWrittenOfConstant | Statistics.MeanBounds |
| src/app/entities/events/event.ts:192-193 | a pair counts as loss when `round(next) - minDiff < round(previous)`, which admits every fall however small (103 then 102.9 adds 0.1) and also rises smaller than minDiff, adding a negative amount | readings 100 then 100.2 with default settings give a loss of −0.2 | the mirror of the gain test, `next + minDiff < previous`, giving a loss that is never negative | not executed | Statistics.LossAsWrittenNegative | Statistics.IntendedLossNonNegative |
