/**
 * The marker layer of src/map/MapMarkers.js: a list of marker descriptors
 * rendered as point features in one source and one symbol layer, both keyed
 * by the component's id, with an optional click-to-popup behaviour.
 */
module MapMarkers {
  import opened Wrappers
  import opened MapSurface

  /** A marker descriptor; absent optional fields are None. */
  datatype Marker = Marker(
    latitude: real,
    longitude: real,
    image: Option<string>,
    title: Option<string>,
    popupHtml: Option<string>)

  /** The icon used when a marker names none. */
  const DefaultImage: string := "default-neutral"

  /** JavaScript's `value || fallback` on an optional string: absent and empty both fall back. */
  function OrElse(value: Option<string>, fallback: string): (r: string)
    ensures value.Some? && value.value != "" ==> r == value.value
    ensures value.None? || value.value == "" ==> r == fallback
  {
    if value.Some? && value.value != "" then value.value else fallback
  }

  /** The feature `markers.map` builds from one marker. */
  function MarkerToFeature(m: Marker): (f: Feature)
    ensures f.PointFeature?
    ensures f.coordinates.lng == m.longitude && f.coordinates.lat == m.latitude
    ensures f.properties.image != ""
    ensures m.image.Some? && m.image.value != "" ==> f.properties.image == m.image.value
    ensures m.image.None? || m.image == Some("") ==> f.properties.image == DefaultImage
    ensures f.properties.title == m.title.GetOr("")
    ensures f.properties.popupHtml == m.popupHtml.GetOr("")
  {
    PointFeature(
      LngLat(m.longitude, m.latitude),
      Properties(OrElse(m.image, DefaultImage), OrElse(m.title, ""), OrElse(m.popupHtml, "")))
  }

  /** `markers.map(...)`: one feature per marker, in the same order. */
  function MarkersToFeatures(markers: seq<Marker>): (fs: seq<Feature>)
    ensures |fs| == |markers|
    ensures forall k :: 0 <= k < |markers| ==> fs[k] == MarkerToFeature(markers[k])
  {
    if markers == [] then []
    else [MarkerToFeature(markers[0])] + MarkersToFeatures(markers[1..])
  }

  /** The listener a marker layer registers: its click handler, scoped to its layer. */
  function ClickListener(id: string): Listener {
    LayerClick(id, id)
  }

  /**
   * One MapMarkers component. Its first effect (mount, teardown) owns the
   * source and the layer named `id`, the click listener and the popup held
   * in the effect's `popup` variable; its second effect fills the source.
   */
  class MarkerLayer {
    const surface: Surface
    const id: string
    /** The effect that set up the map resources has run and not been cleaned up. */
    var mounted: bool
    /** The props the current setup ran with, and the markers of the last render. */
    var showTitles: bool
    var enablePopup: bool
    var markers: seq<Marker>
    /** The effect's `popup` variable. */
    var popup: Popup?
    /** Every popup this layer has created. */
    ghost var created: set<Popup>

    /** The popups this layer created that are still on the map. */
    ghost function OwnPopups(): set<Popup>
      reads this, surface
    {
      surface.popups * created
    }

    /**
     * What holds at all times, even if the map lost the source or the layer:
     * at most the tracked popup of ours is open, only our layer draws our
     * source, and nothing is left behind while unmounted.
     */
    ghost predicate Owned()
      reads this, surface
    {
      && (popup != null ==> popup in created)
      && OwnPopups() <= (if popup == null then {} else {popup})
      && surface.OnlyLayerUsing(id, id)
      && (ClickListener(id) in surface.listeners ==> mounted && enablePopup)
      && (!mounted ==> id !in surface.sources && id !in surface.layers && popup == null && OwnPopups() == {})
    }

    /** Owned, and while mounted the source, the layer and (if enabled) the listener exist. */
    ghost predicate Valid()
      reads this, surface
    {
      && Owned()
      && (mounted ==>
            && id in surface.sources
            && id in surface.layers
            && surface.layers[id] == Layer(SymbolLayer(showTitles), id)
            && (enablePopup ==> ClickListener(id) in surface.listeners))
    }

    /** The source shows exactly the features of the last rendered markers. */
    ghost predicate Synced()
      reads this, surface
    {
      mounted ==> id in surface.sources && surface.sources[id] == MarkersToFeatures(markers)
    }

    /** At most one popup of this layer is open. */
    lemma AtMostOnePopup()
      requires Valid()
      ensures |OwnPopups()| <= 1
    {
      if popup != null {
        assert OwnPopups() <= {popup};
        assert |OwnPopups()| <= |{popup}| by {
          if OwnPopups() != {} {
            assert OwnPopups() == {popup};
          }
        }
      }
    }

    /** A component about to mount: `useId` gave it an id nothing on the map uses. */
    constructor (surface: Surface, id: string)
      requires id !in surface.sources && id !in surface.layers
      requires ClickListener(id) !in surface.listeners
      requires surface.OnlyLayerUsing(id, id)
      ensures this.surface == surface && this.id == id
      ensures !mounted && markers == [] && popup == null && created == {}
      ensures Valid() && Synced()
    {
      this.surface := surface;
      this.id := id;
      mounted := false;
      showTitles := false;
      enablePopup := false;
      markers := [];
      popup := null;
      created := {};
    }

    /** The setup of the first effect: one empty source, one symbol layer, and the listener if enabled. */
    method Mount(showTitles: bool, enablePopup: bool)
      requires Valid() && !mounted
      modifies this, surface
      ensures Valid() && mounted
      ensures this.showTitles == showTitles && this.enablePopup == enablePopup
      ensures popup == null && created == old(created) && markers == old(markers)
      ensures surface.sources == old(surface.sources)[id := []]
      ensures surface.layers == old(surface.layers)[id := Layer(SymbolLayer(showTitles), id)]
      ensures surface.listeners == old(surface.listeners) + (if enablePopup then {ClickListener(id)} else {})
      ensures surface.popups == old(surface.popups)
    {
      surface.AddSource(id, []);
      if showTitles {
        surface.AddLayer(id, Layer(SymbolLayer(true), id));
      } else {
        surface.AddLayer(id, Layer(SymbolLayer(false), id));
      }
      popup := null;
      if enablePopup {
        surface.On(ClickListener(id));
      }
      this.showTitles := showTitles;
      this.enablePopup := enablePopup;
      mounted := true;
    }

    /**
     * The click handler: with popups enabled and a first clicked feature
     * that has popup HTML, close the open popup and open a new one there.
     */
    method OnClick(features: seq<Feature>)
      requires Valid() && mounted
      modifies this`popup, this`created, surface`popups
      ensures Valid()
      ensures var acts := enablePopup && |features| > 0 && features[0].PointFeature?
                          && features[0].properties.popupHtml != "";
              && (!acts ==> popup == old(popup) && surface.popups == old(surface.popups))
              && (acts ==> && popup != null && fresh(popup)
                           && popup.at == features[0].coordinates
                           && popup.html == features[0].properties.popupHtml
                           && surface.popups == old(surface.popups - OwnPopups()) + {popup}
                           && OwnPopups() == {popup})
    {
      if !enablePopup {
        return;
      }
      if |features| == 0 {
        return;
      }
      var feature := features[0];
      if !feature.PointFeature? {
        return;
      }
      var coordinates := feature.coordinates;
      var html := feature.properties.popupHtml;
      if html == "" {
        return;
      }
      ghost var own := OwnPopups();
      if popup != null {
        surface.ClosePopup(popup);
      }
      assert surface.popups == old(surface.popups) - own;
      var p := new Popup(coordinates, html);
      surface.OpenPopup(p);
      popup := p;
      created := created + {p};
    }

    /** The teardown of the first effect; each removal is guarded, so missing resources are fine. */
    method Unmount()
      requires Owned() && mounted
      modifies this, surface
      ensures Valid() && !mounted
      ensures surface.sources == old(surface.sources) - {id}
      ensures surface.layers == old(surface.layers) - {id}
      ensures surface.listeners == old(surface.listeners) - {ClickListener(id)}
      ensures surface.popups == old(surface.popups) - old(OwnPopups())
      ensures created == old(created) && markers == old(markers)
      ensures showTitles == old(showTitles) && enablePopup == old(enablePopup)
    {
      ghost var own := OwnPopups();
      if enablePopup {
        surface.Off(ClickListener(id));
      }
      if popup != null {
        surface.ClosePopup(popup);
      }
      if surface.HasLayer(id) {
        surface.RemoveLayer(id);
      }
      if surface.HasSource(id) {
        surface.RemoveSource(id);
      }
      popup := null;
      mounted := false;
      assert surface.popups == old(surface.popups) - own;
    }

    /** The second effect: replace the whole feature collection, if the source exists. */
    method SetMarkers(markers: seq<Marker>)
      requires Valid()
      modifies surface`sources
      ensures Valid()
      ensures surface.sources ==
                if id in old(surface.sources) then old(surface.sources)[id := MarkersToFeatures(markers)]
                else old(surface.sources)
    {
      if surface.HasSource(id) {
        surface.SetData(id, MarkersToFeatures(markers));
      }
    }

    /** React re-runs the first effect: first render, or showTitles or enablePopup changed. */
    ghost predicate LayoutDepsChanged(showTitles: bool, enablePopup: bool)
      reads this
    {
      !mounted || showTitles != this.showTitles || enablePopup != this.enablePopup
    }

    /**
     * One render as written: the first effect re-runs when showTitles or
     * enablePopup changed, the second when showTitles or the markers
     * changed; cleanups first, then the setups in order.
     */
    method RenderAsWritten(markers: seq<Marker>, showTitles: bool, enablePopup: bool)
      requires Valid()
      modifies this, surface
      ensures Valid() && mounted && created == old(created)
      ensures this.markers == markers && this.showTitles == showTitles && this.enablePopup == enablePopup
      ensures surface.sources == old(surface.sources)[id :=
                if !old(mounted) || showTitles != old(this.showTitles) || markers != old(this.markers)
                then MarkersToFeatures(markers)
                else if enablePopup != old(this.enablePopup) then []
                else old(surface.sources[id])]
      ensures surface.layers == old(surface.layers)[id := Layer(SymbolLayer(showTitles), id)]
      ensures old(LayoutDepsChanged(showTitles, enablePopup)) ==>
                && popup == null
                && surface.listeners == old(surface.listeners) - {ClickListener(id)}
                                        + (if enablePopup then {ClickListener(id)} else {})
                && surface.popups == old(surface.popups) - old(OwnPopups())
      ensures !old(LayoutDepsChanged(showTitles, enablePopup)) ==>
                popup == old(popup) && surface.listeners == old(surface.listeners) && surface.popups == old(surface.popups)
    {
      ghost var sources0 := surface.sources;
      var layoutDeps := !mounted || showTitles != this.showTitles || enablePopup != this.enablePopup;
      var dataDeps := !mounted || showTitles != this.showTitles || markers != this.markers;
      if layoutDeps {
        Restart(showTitles, enablePopup);
      } else {
        assert surface.layers == surface.layers[id := Layer(SymbolLayer(showTitles), id)];
        assert surface.sources == sources0[id := sources0[id]];
      }
      if dataDeps {
        SetMarkers(markers);
        assert surface.sources == sources0[id := MarkersToFeatures(markers)];
      }
      this.markers := markers;
    }

    /** The first effect (re-)running: its cleanup first when mounted, then its setup. */
    method Restart(showTitles: bool, enablePopup: bool)
      requires Valid()
      modifies this, surface
      ensures Valid() && mounted && created == old(created) && popup == null && markers == old(markers)
      ensures this.showTitles == showTitles && this.enablePopup == enablePopup
      ensures surface.sources == old(surface.sources)[id := []]
      ensures surface.layers == old(surface.layers)[id := Layer(SymbolLayer(showTitles), id)]
      ensures surface.listeners == old(surface.listeners) - {ClickListener(id)}
                                   + (if enablePopup then {ClickListener(id)} else {})
      ensures surface.popups == old(surface.popups) - old(OwnPopups())
    {
      ghost var sources0, layers0 := surface.sources, surface.layers;
      if mounted {
        Unmount();
      }
      assert surface.sources[id := []] == sources0[id := []];
      assert surface.layers[id := Layer(SymbolLayer(showTitles), id)] == layers0[id := Layer(SymbolLayer(showTitles), id)];
      Mount(showTitles, enablePopup);
    }

    /** The first effect (re-)running, then the second effect. */
    method Reload(markers: seq<Marker>, showTitles: bool, enablePopup: bool)
      requires Valid()
      modifies this, surface
      ensures Valid() && Synced() && mounted && created == old(created) && popup == null
      ensures this.markers == markers && this.showTitles == showTitles && this.enablePopup == enablePopup
      ensures surface.sources == old(surface.sources)[id := MarkersToFeatures(markers)]
      ensures surface.layers == old(surface.layers)[id := Layer(SymbolLayer(showTitles), id)]
      ensures surface.listeners == old(surface.listeners) - {ClickListener(id)}
                                   + (if enablePopup then {ClickListener(id)} else {})
      ensures surface.popups == old(surface.popups) - old(OwnPopups())
    {
      ghost var sources0 := surface.sources;
      Restart(showTitles, enablePopup);
      SetMarkers(markers);
      assert surface.sources == sources0[id := MarkersToFeatures(markers)];
      this.markers := markers;
    }

    /**
     * One render with the second effect also depending on enablePopup, so
     * it re-runs whenever the first effect recreated the source.
     */
    method Render(markers: seq<Marker>, showTitles: bool, enablePopup: bool)
      requires Valid() && Synced()
      modifies this, surface
      ensures Valid() && Synced() && mounted && created == old(created)
      ensures this.markers == markers && this.showTitles == showTitles && this.enablePopup == enablePopup
      ensures surface.sources == old(surface.sources)[id := MarkersToFeatures(markers)]
      ensures surface.layers == old(surface.layers)[id := Layer(SymbolLayer(showTitles), id)]
      ensures old(LayoutDepsChanged(showTitles, enablePopup)) ==>
                && surface.listeners == old(surface.listeners) - {ClickListener(id)}
                                        + (if enablePopup then {ClickListener(id)} else {})
                && surface.popups == old(surface.popups) - old(OwnPopups())
      ensures !old(LayoutDepsChanged(showTitles, enablePopup)) ==>
                surface.listeners == old(surface.listeners) && surface.popups == old(surface.popups)
    {
      if !mounted || showTitles != this.showTitles || enablePopup != this.enablePopup {
        Reload(markers, showTitles, enablePopup);
      } else {
        assert surface.layers == surface.layers[id := Layer(SymbolLayer(showTitles), id)];
        if markers != this.markers {
          SetMarkers(markers);
        } else {
          assert surface.sources == surface.sources[id := MarkersToFeatures(markers)];
        }
        this.markers := markers;
      }
    }
  }

  /** Toggling only enablePopup, with the same markers, empties the layer as written. */
  method EnablePopupToggleDropsMarkers() returns (shown: seq<Feature>, wanted: seq<Feature>)
    ensures wanted != [] && shown == []
  {
    var surface := new Surface();
    var layer := new MarkerLayer(surface, "markers");
    var ms := [Marker(0.0, 0.0, None, None, None)];
    layer.RenderAsWritten(ms, false, false);
    layer.RenderAsWritten(ms, false, true);
    shown := surface.sources["markers"];
    wanted := MarkersToFeatures(ms);
  }

  /** The same renders with the corrected dependencies keep the markers. */
  method EnablePopupToggleKeepsMarkers() returns (shown: seq<Feature>, wanted: seq<Feature>)
    ensures wanted != [] && shown == wanted
  {
    var surface := new Surface();
    var layer := new MarkerLayer(surface, "markers");
    var ms := [Marker(0.0, 0.0, None, None, None)];
    layer.Render(ms, false, false);
    layer.Render(ms, false, true);
    shown := surface.sources["markers"];
    wanted := MarkersToFeatures(ms);
  }

  /**
   * A whole life cycle: render markers, open a popup, unmount. Whether the
   * render runs the effects as written or with the corrected dependencies,
   * the map is left with exactly the sources, layers, listeners and popups it had.
   */
  method LifeCycleLeavesNothing(surface: Surface, id: string, markers: seq<Marker>, showTitles: bool,
                                enablePopup: bool, clicked: seq<Feature>, asWritten: bool)
    requires id !in surface.sources && id !in surface.layers
    requires ClickListener(id) !in surface.listeners
    requires surface.OnlyLayerUsing(id, id)
    modifies surface
    ensures surface.sources == old(surface.sources)
    ensures surface.layers == old(surface.layers)
    ensures surface.listeners == old(surface.listeners)
    ensures surface.popups == old(surface.popups)
  {
    var layer := new MarkerLayer(surface, id);
    if asWritten {
      layer.RenderAsWritten(markers, showTitles, enablePopup);
    } else {
      layer.Render(markers, showTitles, enablePopup);
    }
    ghost var before := surface.popups;
    assert layer.OwnPopups() == {};
    layer.OnClick(clicked);
    assert layer.popup != null ==> layer.popup !in before;
    assert surface.popups - layer.OwnPopups() == before;
    layer.Unmount();
  }
}
