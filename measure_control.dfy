/**
 * The measure control of src/map/measure/MeasureControl.js: a toggle that,
 * while active, owns one GeoJSON source and one line layer drawing the
 * clicked points, and a map-wide click listener that appends points.
 */
module Measure {
  import opened Wrappers
  import opened MapSurface

  /** The feature collection `_update` builds: one line through all points, once there are two. */
  function LineCollection(points: seq<LngLat>): (fc: seq<Feature>)
    ensures |fc| <= 1
    ensures fc != [] <==> |points| >= 2
    ensures forall f :: f in fc ==> f == LineStringFeature(points)
  {
    if |points| >= 2 then [LineStringFeature(points)] else []
  }

  class MeasureControl {
    /** Whether an `onToggle` callback was supplied. */
    const hasOnToggle: bool
    /** The random ids drawn at construction; fixed from then on. */
    const sourceId: string
    const layerId: string
    /** `_map`: set by onAdd, dropped by onRemove. */
    var surface: Surface?
    /** `_container` is not null. */
    var hasContainer: bool
    var active: bool
    var points: seq<LngLat>

    /** The listener registered for `_clickHandler`, the bound `_handleClick`. */
    function ClickHandler(): Listener {
      MapClick(layerId)
    }

    /**
     * The control owns its source, layer and listener exactly while active,
     * and the drawn line always passes through the recorded points.
     */
    ghost predicate Valid()
      reads this, surface
    {
      && (surface == null ==> !active)
      && (surface != null ==>
            && (sourceId in surface.sources <==> active)
            && (layerId in surface.layers <==> active)
            && (ClickHandler() in surface.listeners <==> active)
            && (active ==> && surface.layers[layerId] == Layer(LineLayer, sourceId)
                           && surface.sources[sourceId] == LineCollection(points))
            && surface.OnlyLayerUsing(sourceId, layerId))
    }

    /** The map has none of the control's resources and no foreign layer draws its source. */
    ghost predicate UnusedOn(s: Surface)
      reads s
    {
      && sourceId !in s.sources && layerId !in s.layers && ClickHandler() !in s.listeners
      && s.OnlyLayerUsing(sourceId, layerId)
    }

    constructor (hasOnToggle: bool, sourceId: string, layerId: string)
      ensures this.hasOnToggle == hasOnToggle && this.sourceId == sourceId && this.layerId == layerId
      ensures surface == null && !hasContainer && !active && points == []
      ensures Valid()
    {
      this.hasOnToggle := hasOnToggle;
      this.sourceId := sourceId;
      this.layerId := layerId;
      surface := null;
      hasContainer := false;
      active := false;
      points := [];
    }

    /** onAdd: keep the map and build the container (the button itself is not modelled). */
    method OnAdd(s: Surface)
      requires Valid() && surface == null && UnusedOn(s)
      modifies this
      ensures Valid() && surface == s && hasContainer
      ensures active == old(active) && points == old(points)
    {
      surface := s;
      hasContainer := true;
    }

    /** onRemove: drop the container, deactivate, forget the map. */
    method OnRemove()
      requires Valid() && surface != null
      modifies this, surface
      ensures Valid() && surface == null && !hasContainer && !active
      ensures UnusedOn(old(surface))
      ensures old(surface).sources == old(surface.sources) - {sourceId}
      ensures old(surface).layers == old(surface.layers) - {layerId}
      ensures old(surface).listeners == old(surface.listeners) - {ClickHandler()}
      ensures old(surface).popups == old(surface.popups)
    {
      hasContainer := false;
      Deactivate();
      surface := null;
    }

    /** toggle: flip the state and report the new one to the callback, if any. */
    method Toggle() returns (notified: Option<bool>)
      requires Valid() && surface != null
      modifies this, surface
      ensures Valid() && surface == old(surface) && hasContainer == old(hasContainer)
      ensures active == !old(active)
      ensures notified == if hasOnToggle then Some(active) else None
      ensures old(active) ==>
                && points == old(points)
                && surface.sources == old(surface.sources) - {sourceId}
                && surface.layers == old(surface.layers) - {layerId}
                && surface.listeners == old(surface.listeners) - {ClickHandler()}
      ensures !old(active) ==>
                && points == []
                && surface.sources == old(surface.sources)[sourceId := []]
                && surface.layers == old(surface.layers)[layerId := Layer(LineLayer, sourceId)]
                && surface.listeners == old(surface.listeners) + {ClickHandler()}
      ensures surface.popups == old(surface.popups)
    {
      if active {
        Deactivate();
      } else {
        Activate();
      }
      notified := if hasOnToggle then Some(active) else None;
    }

    /** _activate: empty point list, one empty source, one line layer on it, the click listener. */
    method Activate()
      requires Valid() && surface != null && !active
      modifies this`active, this`points, surface
      ensures Valid() && active && points == []
      ensures surface.sources == old(surface.sources)[sourceId := []]
      ensures surface.layers == old(surface.layers)[layerId := Layer(LineLayer, sourceId)]
      ensures surface.listeners == old(surface.listeners) + {ClickHandler()}
      ensures surface.popups == old(surface.popups)
    {
      active := true;
      points := [];
      surface.AddSource(sourceId, []);
      surface.AddLayer(layerId, Layer(LineLayer, sourceId));
      surface.On(ClickHandler());
    }

    /**
     * _deactivate: unregister the listener and remove the layer and the
     * source where present; the points are kept.
     */
    method Deactivate()
      requires surface != null && surface.OnlyLayerUsing(sourceId, layerId)
      modifies this`active, surface
      ensures Valid() && !active && points == old(points)
      ensures UnusedOn(surface)
      ensures surface.sources == old(surface.sources) - {sourceId}
      ensures surface.layers == old(surface.layers) - {layerId}
      ensures surface.listeners == old(surface.listeners) - {ClickHandler()}
      ensures surface.popups == old(surface.popups)
    {
      active := false;
      surface.Off(ClickHandler());
      if surface.HasLayer(layerId) {
        surface.RemoveLayer(layerId);
      }
      if surface.HasSource(sourceId) {
        surface.RemoveSource(sourceId);
      }
    }

    /** _handleClick: append the clicked coordinate, then redraw. */
    method HandleClick(at: LngLat)
      requires Valid() && surface != null
      modifies this`points, surface`sources
      ensures Valid()
      ensures points == old(points) + [at]
      ensures surface.sources ==
                if active then old(surface.sources)[sourceId := LineCollection(points)]
                else old(surface.sources)
    {
      points := points + [at];
      Update();
    }

    /** _update: replace the source's data with the line through the points, if the source exists. */
    method Update()
      requires surface != null
      modifies surface`sources
      ensures surface.sources ==
                if sourceId in old(surface.sources) then old(surface.sources)[sourceId := LineCollection(points)]
                else old(surface.sources)
    {
      if surface.HasSource(sourceId) {
        surface.SetData(sourceId, LineCollection(points));
      }
    }
  }

  /**
   * Three clicks draw one line through the three points in order; toggling
   * off leaves no source, and toggling on again starts with no points.
   */
  method MeasureSession() returns (drawn: seq<Feature>, leftOver: bool, restartPoints: seq<LngLat>)
    ensures drawn == [LineStringFeature([LngLat(0.0, 0.0), LngLat(0.0, 0.009), LngLat(0.0, 0.018)])]
    ensures !leftOver && restartPoints == []
  {
    var surface := new Surface();
    var control := new MeasureControl(false, "measure-src", "measure-line");
    control.OnAdd(surface);
    var _ := control.Toggle();
    control.HandleClick(LngLat(0.0, 0.0));
    control.HandleClick(LngLat(0.0, 0.009));
    control.HandleClick(LngLat(0.0, 0.018));
    assert control.points == [LngLat(0.0, 0.0), LngLat(0.0, 0.009), LngLat(0.0, 0.018)];
    drawn := surface.sources["measure-src"];
    var _ := control.Toggle();
    leftOver := surface.HasSource("measure-src") || surface.HasLayer("measure-line");
    var _ := control.Toggle();
    restartPoints := control.points;
  }
}
