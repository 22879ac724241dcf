# Geofence distance, marker layer and measure control — a Dafny model

This project models the algorithmic and stateful core of a vehicle-tracking
web front end (a React application drawing on a maplibre map):

- **Geofence test and daily distance** (`src/main/MainPage.jsx`). The
  ray-casting test `pointInRing`, the `Polygon` / `MultiPolygon` test
  `pointInPolygon`, and the effect that sums today's per-position distances.
  That effect drops every segment whose arithmetic midpoint lies inside a
  visible geofence.
- **Marker layer** (`src/map/MapMarkers.js`). Markers are mapped to point
  features. The component mounts one source and one symbol layer keyed by its
  id and tears them down again. A click opens at most one popup at a time.
- **Measure control** (`src/map/measure/MeasureControl.js`). A toggle that,
  while active, owns a source, a line layer and a map click listener. Each
  click appends a point, and the line is redrawn through all of them.

Files and modules:

| file | module | contents |
|---|---|---|
| `wrappers.dfy` | `Wrappers` | `Option`, standing for JavaScript's `null`/`undefined` |
| `geofence.dfy` | `Geofence` | rings, polygons, `PointInRing` (the loop), `PointInPolygon`, lemmas |
| `daily_distance.dfy` | `DailyDistance` | positions, hidden-geofence filter, `ExcludedDistance` (the loop), lemmas |
| `map_surface.dfy` | `MapSurface` | the map as abstract state: sources and their features, layers, click listeners, open popups |
| `map_markers.dfy` | `MapMarkers` | marker-to-feature mapping, class `MarkerLayer` (the component's effects) |
| `measure_control.dfy` | `Measure` | `LineCollection`, class `MeasureControl` |

Coordinates and distances are `real`.

The maplibre map is the class `MapSurface.Surface`. Its fields are the source
ids with their feature collections, the layer ids with the source each layer
draws, the set of registered click listeners, and the set of open popups
(`Popup` objects). Its methods are the maplibre calls the core makes. A call
that maplibre rejects carries a `requires`:
- a source or layer id that is already used;
- a layer whose source does not exist;
- removing a source that a layer still draws.

The map is passed to each component rather than reached through a module
global.

The model follows the code:
- fewer than two positions give `null` (`None`), not 0;
- `_deactivate` keeps `_points`, and only `_activate` empties them;
- no double-click finish, no distance labels and no popup HTML built from
  stop fields exist in the code, so none is modelled.

## Model

| member | source | states |
|---|---|---|
| `Geofence.PrevIndex` | src/main/MainPage.jsx:70 | `j` is the vertex before `i`, cyclically: `j + 1 ≡ i (mod n)`, and `j` indexes the ring |
| `Geofence.PointInRing` | src/main/MainPage.jsx:68-79 | the loop's `inside` equals the parity of the edges the eastward ray crosses (`InRing`); an empty ring gives false; the crossing longitude is computed only for straddling edges, so it never divides by zero |
| `Geofence.CrossingWithinEdge` | src/main/MainPage.jsx:75 | for a straddling edge, the computed crossing longitude lies between the edge's two longitudes |
| `Geofence.NoCrossedEdge` | src/main/MainPage.jsx:70-77 | if no edge is crossed, the crossing count is 0 |
| `Geofence.WestCrossingParity` | src/main/MainPage.jsx:70-77 | for a point west of every vertex, crossings are exactly the straddling edges, whose parity along the closed ring is even |
| `Geofence.OutsideBoxIsOutside` | src/main/MainPage.jsx:68-79 | a point north, south, east or west of every vertex is not inside the ring |
| `Geofence.AnyRingContains` | src/main/MainPage.jsx:86 | `holes.some(...)` is true iff some ring contains the point |
| `Geofence.PolygonContains` | src/main/MainPage.jsx:84-87 | a polygon contains the point iff its outer ring does and none of its holes does |
| `Geofence.AnyPolygonContains` | src/main/MainPage.jsx:89-93 | a MultiPolygon's `some` is true iff some component polygon contains the point |
| `Geofence.PointInPolygon` | src/main/MainPage.jsx:81-96 | false for a missing geometry and for any type other than Polygon or MultiPolygon; the Polygon rule is outer ring minus holes; the MultiPolygon rule is some component under that rule |
| `Geofence.SquareContainsCentre` | src/main/MainPage.jsx:81-87 | (5, 5) is inside the square (0,0)-(10,10) |
| `Geofence.SquareExcludesFarPoint` | src/main/MainPage.jsx:81-87 | (15, 15) is outside that square |
| `Geofence.HoleExcludesCentre` | src/main/MainPage.jsx:83-87 | a hole around (5, 5) excludes it from the polygon |
| `DailyDistance.VisibleGeometries` | src/main/MainPage.jsx:164-167 | the result holds exactly the geometries of the geofences whose hide flag is off |
| `DailyDistance.HiddenGeofenceIgnored` | src/main/MainPage.jsx:164-167 | inserting a hidden geofence at any position of the list does not change the visible geometries |
| `DailyDistance.InsideAny` | src/main/MainPage.jsx:177 | true iff some visible geometry contains the point |
| `DailyDistance.ExcludedDistance` | src/main/MainPage.jsx:163-185 | `None` iff the trace has fewer than 2 positions; otherwise `Some` of the sum of the positive segment distances whose midpoint is outside every polygon (`OutsideMeters`) |
| `DailyDistance.DailyDistanceMeters` | src/main/MainPage.jsx:162-186 | the whole effect: the same result computed over the non-hidden geofences |
| `DailyDistance.OutsideMetersBounds` | src/main/MainPage.jsx:169-181 | the sum is at least 0 and at most the sum of all positive segment distances |
| `DailyDistance.OutsidePlusInside` | src/main/MainPage.jsx:173-180 | counted plus excluded metres equal all positive metres: a positive segment is excluded exactly when its midpoint is inside some polygon |
| `DailyDistance.NoPolygonsCountsAll` | src/main/MainPage.jsx:175-180 | with no polygons the result is the sum of all positive segment distances |
| `DailyDistance.AllInsideIsZero` | src/main/MainPage.jsx:175-180 | if every midpoint is inside some polygon the result is 0, whatever the segment distances |
| `DailyDistance.MorePolygonsLessDistance` | src/main/MainPage.jsx:177-180 | adding polygons never increases the result |
| `MapMarkers.OrElse` | src/map/MapMarkers.js:103-105 | JavaScript's logical-or fallback: a present, non-empty string passes through; an absent or empty one falls back |
| `MapMarkers.MarkerToFeature` | src/map/MapMarkers.js:96-107 | one Point feature at `[longitude, latitude]`; the image is never empty, passes through when given and is `default-neutral` when absent or empty; title and popupHtml pass through when present and are `''` otherwise |
| `MapMarkers.MarkersToFeatures` | src/map/MapMarkers.js:96-107 | one feature per marker, same count, same order |
| `MapMarkers.MarkerLayer.constructor` | src/map/MapMarkers.js:9-10 | a component with a fresh id that nothing on the map uses; nothing is mounted and no popup is open |
| `MapMarkers.MarkerLayer.AtMostOnePopup` | src/map/MapMarkers.js:60-72 | in every valid state at most one popup opened by this layer is on the map; the work is in `OnClick` keeping `Valid()`, which needs its close of the previous popup |
| `MapMarkers.MarkerLayer.Mount` | src/map/MapMarkers.js:16-77 | adds exactly one empty source and one symbol layer on it, both named `id`, in the display mode `showTitles` selects; registers the layer-scoped click listener iff `enablePopup`; nothing else changes |
| `MapMarkers.MarkerLayer.OnClick` | src/map/MapMarkers.js:61-73 | does nothing when popups are disabled, no feature was clicked, or its popupHtml is empty; otherwise closes this layer's open popup and opens one new popup at the feature with its HTML, leaving exactly that one of ours open; `Valid()` is preserved, so at most one of ours is ever open |
| `MapMarkers.MarkerLayer.Unmount` | src/map/MapMarkers.js:79-90 | unregisters the listener, closes our popup, and removes the layer and the source where present, which requires neither to exist; afterwards no resource named `id` and no popup of ours remains, and nothing else changes |
| `MapMarkers.MarkerLayer.SetMarkers` | src/map/MapMarkers.js:93-108 | replaces the source's whole feature collection with the mapped markers; the map is unchanged if the source does not exist |
| `MapMarkers.MarkerLayer.RenderAsWritten` | src/map/MapMarkers.js:16-109 | a render under the effects' dependency lists as written: the source holds the mapped markers when this is the first render or `showTitles` or the markers changed; it is left empty when only `enablePopup` changed, and keeps its old contents (possibly a stale empty list) when nothing changed; the layer matches `showTitles`; when the first effect re-runs, our listener is re-registered iff `enablePopup` and our popup is closed, otherwise listeners and popups are unchanged; no other source or layer changes |
| `MapMarkers.MarkerLayer.Restart` | src/map/MapMarkers.js:16-91 | the first effect re-run, its cleanup first when mounted: the source `id` is recreated empty, the layer matches `showTitles`, our listener is present iff `enablePopup`, our popups are closed, and nothing else changes |
| `MapMarkers.MarkerLayer.Reload` | src/map/MapMarkers.js:16-108 | the setup effect re-run (teardown first when mounted) followed by the markers effect: the source holds exactly the mapped markers, the layer is rebuilt, and the old popup is gone |
| `MapMarkers.MarkerLayer.Render` | src/map/MapMarkers.js:16-109 | a render with the corrected dependencies: afterwards the source always holds exactly the mapped markers of this render (`Synced`), and the layer matches `showTitles` |
| `MapMarkers.EnablePopupToggleDropsMarkers` | src/map/MapMarkers.js:91-109 | as written, re-rendering the same one-marker list with only `enablePopup` flipped leaves the source empty |
| `MapMarkers.EnablePopupToggleKeepsMarkers` | src/map/MapMarkers.js:91-109 | with the corrected dependencies the same renders keep the marker's feature |
| `MapMarkers.LifeCycleLeavesNothing` | src/map/MapMarkers.js:16-109 | mount, markers, a click and teardown, with the render as written or corrected and any flags, leave exactly the sources, layers, listeners and popups the map had before |
| `Measure.LineCollection` | src/map/measure/MeasureControl.js:94-103 | at most one feature; a feature exists iff there are at least 2 points, and that feature is the LineString through all points in order |
| `Measure.MeasureControl.constructor` | src/map/measure/MeasureControl.js:4-12 | a new control is inactive, has no points, no container and no map |
| `Measure.MeasureControl.OnAdd` | src/map/measure/MeasureControl.js:14-34 | keeps the map and creates the container; state otherwise unchanged |
| `Measure.MeasureControl.OnRemove` | src/map/measure/MeasureControl.js:36-41 | clears the container, deactivates, drops the map; the old map keeps none of the control's resources |
| `Measure.MeasureControl.Toggle` | src/map/measure/MeasureControl.js:43-46 | flips `active` and returns the new value handed to the callback when one was supplied; off→on activates, on→off deactivates |
| `Measure.MeasureControl.Activate` | src/map/measure/MeasureControl.js:48-74 | sets `active`, empties the points, adds exactly one empty source and one line layer bound to it, and registers the map click handler |
| `Measure.MeasureControl.Deactivate` | src/map/measure/MeasureControl.js:76-83 | clears `active`, unregisters the handler, and removes the layer and the source where present; afterwards neither exists; the points are kept |
| `Measure.MeasureControl.HandleClick` | src/map/measure/MeasureControl.js:85-89 | appends exactly the clicked point at the end, and redraws the line when active |
| `Measure.MeasureControl.Update` | src/map/measure/MeasureControl.js:91-105 | sets the source's data to `LineCollection(points)`; a no-op when the source is absent |
| `Measure.MeasureSession` | src/map/measure/MeasureControl.js:43-105 | three clicks draw one line through the three points in order; toggling off leaves no source or layer; toggling on again starts with no points |

## Left out

- The position fetch with `AbortController` (src/main/MainPage.jsx:137-160): network I/O. The trace is an input.
- `geofenceToFeature`, `useFilter`, the redux selectors and the styles: code outside this model or UI. Each geofence carries its converted geometry, and only the hide filter of line 165 is modelled.
- The rest of MainPage's rendering, src/main/MainMap.jsx and src/map/measure/MapMeasure.js: component composition, not part of this model.
- IEEE floating point: rounding at ring boundaries is not modelled. Neither is a `NaN` distance, which passes the `<= 0` test and would poison the sum.
- A non-numeric `attributes.distance` is modelled as `None`, and so contributes 0.
- `DailyDistance.GeofenceItem`: `hide` stands for the truthiness of `gf.attributes?.hide` (src/main/MainPage.jsx:165), so a missing `attributes`, a missing flag and any falsy value are all `false`.
- A `Polygon` with no rings makes `pointInRing` throw (its `outer` is `undefined`). The model's `PolygonRings` always has an outer ring. Vertices with fewer than two numbers are not modelled.
- maplibre internals: layout and paint properties, `findFonts`, the canvas cursor, and the DOM button built in `onAdd`.
- `MapMarkers.MarkerLayer.OnClick`: does not model a popup closing itself on the next map click or move (`closeOnClick`, `closeOnMove`). The map's popups change only through the layer's own calls.
- `iconScale`: not in the setup effect's dependencies and only part of the layout, so it is not modelled.
- The double-click registration of `this._finish` (src/map/measure/MeasureControl.js:73): `_finish` is undefined, so the call registers nothing.
- `Math.random` ids (MeasureControl) and `useId` (MapMarkers): taken as constructor parameters that nothing on the map uses yet.
- The `onToggle` callback is foreign code. `Toggle` returns the value the callback would receive.
- maplibre's `on` can register the same handler twice. Listeners are a set here, which is enough because the core never registers a handler twice.
- React compares effect dependencies by reference. The model compares the marker list by value.
- Distance labels, haversine distance and stop detection: not present in the modelled code.

## Findings

| source | as written | input that shows it | evidently intended | confidence | as-written member | corrected member |
|---|---|---|---|---|---|---|
| src/map/MapMarkers.js:109 | the markers effect depends on `[showTitles, markers]`. The setup effect (line 91, `[showTitles, enablePopup]`) recreates the source with no features. | re-render with the same `markers` array and `showTitles`, and with `enablePopup` flipped: the source stays empty | the markers effect re-runs whenever the source is recreated. Its dependencies already include `showTitles` for this reason and should include `enablePopup` too. | medium; not executed | `MapMarkers.EnablePopupToggleDropsMarkers` | `MapMarkers.MarkerLayer.Render` |
