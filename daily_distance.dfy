/**
 * Today's travelled distance outside all visible geofences
 * (src/main/MainPage.jsx, the effect that sets dailyDistanceMeters).
 * Each position carries the distance travelled since the previous fix; a
 * segment is dropped when its arithmetic midpoint lies inside a geofence.
 */
module DailyDistance {
  import opened Wrappers
  import opened Geofence

  /**
   * A position fix. `distance` is `attributes.distance` when it is a
   * number, and None when it is absent or of another type.
   */
  datatype Position = Position(latitude: real, longitude: real, distance: Option<real>)

  /** A geofence as the host holds it: its hide flag and its converted geometry. */
  datatype GeofenceItem = GeofenceItem(hide: bool, geometry: Option<Geometry>)

  /** The geometries of the geofences that are not hidden, in order. */
  function VisibleGeometries(geofences: seq<GeofenceItem>): (r: seq<Option<Geometry>>)
    ensures |r| <= |geofences|
    ensures forall g :: g in r <==> exists k :: 0 <= k < |geofences| && !geofences[k].hide && geofences[k].geometry == g
  {
    if geofences == [] then []
    else
      var rest := VisibleGeometries(geofences[1..]);
      assert forall k :: 1 <= k < |geofences| ==> geofences[k] == geofences[1..][k - 1];
      if geofences[0].hide then rest else [geofences[0].geometry] + rest
  }

  /** `geofencePolygons.some(geom => pointInPolygon(lon, lat, geom))`. */
  function InsideAny(lon: real, lat: real, polygons: seq<Option<Geometry>>): (r: bool)
    ensures r <==> exists k :: 0 <= k < |polygons| && PointInPolygon(lon, lat, polygons[k])
  {
    if polygons == [] then false
    else
      var rest := InsideAny(lon, lat, polygons[1..]);
      assert rest <==> exists k :: 1 <= k < |polygons| && PointInPolygon(lon, lat, polygons[k]) by {
        forall k | 1 <= k < |polygons| ensures polygons[k] == polygons[1..][k - 1] { }
      }
      PointInPolygon(lon, lat, polygons[0]) || rest
  }

  /** The metres a segment ending at `curr` reports: its numeric distance, else 0. */
  function SegmentMeters(curr: Position): real {
    curr.distance.GetOr(0.0)
  }

  /** The arithmetic midpoint of the segment prev-curr lies inside some polygon. */
  predicate MidpointInside(prev: Position, curr: Position, polygons: seq<Option<Geometry>>) {
    InsideAny((prev.longitude + curr.longitude) / 2.0, (prev.latitude + curr.latitude) / 2.0, polygons)
  }

  /** The segment prev-curr has a positive distance and a midpoint outside every polygon. */
  predicate Counted(prev: Position, curr: Position, polygons: seq<Option<Geometry>>) {
    SegmentMeters(curr) > 0.0 && !MidpointInside(prev, curr, polygons)
  }

  /** The sum over the segments ending at indices 1 .. n-1 that are counted. */
  function OutsideMeters(trace: seq<Position>, polygons: seq<Option<Geometry>>, n: nat): real
    requires n <= |trace|
  {
    if n <= 1 then 0.0
    else OutsideMeters(trace, polygons, n - 1)
         + (if Counted(trace[n - 2], trace[n - 1], polygons) then SegmentMeters(trace[n - 1]) else 0.0)
  }

  /** The sum of all positive segment distances among the segments ending at indices 1 .. n-1. */
  function PositiveMeters(trace: seq<Position>, n: nat): real
    requires n <= |trace|
  {
    if n <= 1 then 0.0
    else PositiveMeters(trace, n - 1)
         + (if SegmentMeters(trace[n - 1]) > 0.0 then SegmentMeters(trace[n - 1]) else 0.0)
  }

  /** The sum of the positive segment distances whose midpoint is inside some polygon. */
  function InsideMeters(trace: seq<Position>, polygons: seq<Option<Geometry>>, n: nat): real
    requires n <= |trace|
  {
    if n <= 1 then 0.0
    else InsideMeters(trace, polygons, n - 1)
         + (if SegmentMeters(trace[n - 1]) > 0.0 && MidpointInside(trace[n - 2], trace[n - 1], polygons)
            then SegmentMeters(trace[n - 1]) else 0.0)
  }

  /**
   * The loop of the effect: None (the host's null) for fewer than two
   * positions, otherwise the sum of the counted segments.
   */
  method ExcludedDistance(trace: seq<Position>, polygons: seq<Option<Geometry>>) returns (r: Option<real>)
    ensures |trace| < 2 <==> r.None?
    ensures r.Some? ==> r.value == OutsideMeters(trace, polygons, |trace|)
  {
    if |trace| >= 2 {
      var distance := 0.0;
      var i := 1;
      while i < |trace|
        invariant 1 <= i <= |trace|
        invariant distance == OutsideMeters(trace, polygons, i)
      {
        var prev := trace[i - 1];
        var curr := trace[i];
        var segMeters := if curr.distance.Some? then curr.distance.value else 0.0;
        if segMeters <= 0.0 {
          assert !Counted(prev, curr, polygons);
          i := i + 1;
          continue;
        }
        var midLat := (prev.latitude + curr.latitude) / 2.0;
        var midLon := (prev.longitude + curr.longitude) / 2.0;
        var inside := InsideAny(midLon, midLat, polygons);
        assert inside == MidpointInside(prev, curr, polygons);
        assert segMeters == SegmentMeters(curr);
        if !inside {
          distance := distance + segMeters;
        }
        i := i + 1;
      }
      r := Some(distance);
    } else {
      r := None;
    }
  }

  /** The whole effect: filter out hidden geofences, then aggregate. */
  method DailyDistanceMeters(trace: seq<Position>, geofences: seq<GeofenceItem>) returns (r: Option<real>)
    ensures |trace| < 2 <==> r.None?
    ensures r.Some? ==> r.value == OutsideMeters(trace, VisibleGeometries(geofences), |trace|)
  {
    if |trace| >= 2 {
      var geofencePolygons := VisibleGeometries(geofences);
      r := ExcludedDistance(trace, geofencePolygons);
    } else {
      r := None;
    }
  }

  // Properties of the aggregate

  /** The result never goes below zero nor above the sum of all positive segments. */
  lemma {:induction false} OutsideMetersBounds(trace: seq<Position>, polygons: seq<Option<Geometry>>, n: nat)
    requires n <= |trace|
    ensures 0.0 <= OutsideMeters(trace, polygons, n) <= PositiveMeters(trace, n)
  {
    if n > 1 {
      OutsideMetersBounds(trace, polygons, n - 1);
    }
  }

  /** Every positive segment is either counted or excluded, never both. */
  lemma {:induction false} OutsidePlusInside(trace: seq<Position>, polygons: seq<Option<Geometry>>, n: nat)
    requires n <= |trace|
    ensures OutsideMeters(trace, polygons, n) + InsideMeters(trace, polygons, n) == PositiveMeters(trace, n)
  {
    if n > 1 {
      OutsidePlusInside(trace, polygons, n - 1);
    }
  }

  /** With no geofence, every positive segment counts. */
  lemma {:induction false} NoPolygonsCountsAll(trace: seq<Position>, n: nat)
    requires n <= |trace|
    ensures OutsideMeters(trace, [], n) == PositiveMeters(trace, n)
  {
    if n > 1 {
      NoPolygonsCountsAll(trace, n - 1);
    }
  }

  /** A trace whose every segment midpoint is inside some geofence yields 0. */
  lemma {:induction false} AllInsideIsZero(trace: seq<Position>, polygons: seq<Option<Geometry>>, n: nat)
    requires n <= |trace|
    requires forall k :: 1 <= k < n ==> MidpointInside(trace[k - 1], trace[k], polygons)
    ensures OutsideMeters(trace, polygons, n) == 0.0
  {
    if n > 1 {
      AllInsideIsZero(trace, polygons, n - 1);
    }
  }

  /** Adding geofences can only lower the distance. */
  lemma {:induction false} MorePolygonsLessDistance(trace: seq<Position>, polygons: seq<Option<Geometry>>, extra: seq<Option<Geometry>>, n: nat)
    requires n <= |trace|
    ensures OutsideMeters(trace, polygons + extra, n) <= OutsideMeters(trace, polygons, n)
  {
    if n > 1 {
      MorePolygonsLessDistance(trace, polygons, extra, n - 1);
      var prev, curr := trace[n - 2], trace[n - 1];
      if MidpointInside(prev, curr, polygons) {
        var lon, lat := (prev.longitude + curr.longitude) / 2.0, (prev.latitude + curr.latitude) / 2.0;
        var k :| 0 <= k < |polygons| && PointInPolygon(lon, lat, polygons[k]);
        assert (polygons + extra)[k] == polygons[k];
      }
    }
  }

  /** A hidden geofence, wherever it sits in the list, has no effect on the result. */
  lemma {:induction false} HiddenGeofenceIgnored(before: seq<GeofenceItem>, hidden: GeofenceItem, after: seq<GeofenceItem>)
    requires hidden.hide
    ensures VisibleGeometries(before + [hidden] + after) == VisibleGeometries(before + after)
  {
    if before == [] {
      assert before + [hidden] + after == [hidden] + after;
      assert ([hidden] + after)[1..] == after;
      assert before + after == after;
    } else {
      assert (before + [hidden] + after)[0] == before[0] == (before + after)[0];
      assert (before + [hidden] + after)[1..] == before[1..] + [hidden] + after;
      assert (before + after)[1..] == before[1..] + after;
      HiddenGeofenceIgnored(before[1..], hidden, after);
    }
  }
}
