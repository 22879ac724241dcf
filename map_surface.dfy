/**
 * The map surface shared by the marker layers and the measure control: an
 * abstraction of the maplibre map object, keeping only what the core
 * observes: its data sources with their features, its layers, its click
 * listeners and its open popups.
 */
module MapSurface {

  /** A map coordinate `[lng, lat]`. */
  datatype LngLat = LngLat(lng: real, lat: real)

  /** The properties the marker layer puts on each point feature. */
  datatype Properties = Properties(image: string, title: string, popupHtml: string)

  /** A GeoJSON feature: a point with properties, or a line through coordinates. */
  datatype Feature =
    | PointFeature(coordinates: LngLat, properties: Properties)
    | LineStringFeature(path: seq<LngLat>)

  /** A symbol layer (showing titles under the icons, or icons only) or a line layer. */
  datatype LayerKind = SymbolLayer(showTitles: bool) | LineLayer

  /** A rendering layer bound to the source it draws. */
  datatype Layer = Layer(kind: LayerKind, source: string)

  /**
   * A registered click listener: scoped to one layer, or on the whole map.
   * `handler` names the callback, which the source identifies by reference.
   */
  datatype Listener = LayerClick(layerId: string, handler: string) | MapClick(handler: string)

  /** An open popup: where it is anchored and the HTML it shows. */
  class Popup {
    const at: LngLat
    const html: string

    constructor (at: LngLat, html: string)
      ensures this.at == at && this.html == html
    {
      this.at := at;
      this.html := html;
    }
  }

  class Surface {
    /** Each source id with the features of its current feature collection. */
    var sources: map<string, seq<Feature>>
    var layers: map<string, Layer>
    var listeners: set<Listener>
    var popups: set<Popup>

    constructor ()
      ensures sources == map[] && layers == map[] && listeners == {} && popups == {}
    {
      sources := map[];
      layers := map[];
      listeners := {};
      popups := {};
    }

    /** No layer other than `layerId` draws the source `sourceId`. */
    ghost predicate OnlyLayerUsing(sourceId: string, layerId: string)
      reads this
    {
      forall l :: l in layers && l != layerId ==> layers[l].source != sourceId
    }

    /** `getSource(id)` is defined. */
    predicate HasSource(id: string)
      reads this
    {
      id in sources
    }

    /** `getLayer(id)` is defined. */
    predicate HasLayer(id: string)
      reads this
    {
      id in layers
    }

    /** `addSource`: the id must be unused. */
    method AddSource(id: string, features: seq<Feature>)
      requires id !in sources
      modifies this`sources
      ensures sources == old(sources)[id := features]
    {
      sources := sources[id := features];
    }

    /** `addLayer`: the id must be unused and the layer's source must exist. */
    method AddLayer(id: string, layer: Layer)
      requires id !in layers && layer.source in sources
      modifies this`layers
      ensures layers == old(layers)[id := layer]
    {
      layers := layers[id := layer];
    }

    /** `getSource(id).setData(...)`: replaces the whole feature collection. */
    method SetData(id: string, features: seq<Feature>)
      requires id in sources
      modifies this`sources
      ensures sources == old(sources)[id := features]
    {
      sources := sources[id := features];
    }

    method RemoveLayer(id: string)
      requires id in layers
      modifies this`layers
      ensures layers == old(layers) - {id}
    {
      layers := layers - {id};
    }

    /** `removeSource`: no layer may still draw the source. */
    method RemoveSource(id: string)
      requires id in sources
      requires forall l :: l in layers ==> layers[l].source != id
      modifies this`sources
      ensures sources == old(sources) - {id}
    {
      sources := sources - {id};
    }

    /** `on`: registering a listener twice keeps one registration. */
    method On(listener: Listener)
      modifies this`listeners
      ensures listeners == old(listeners) + {listener}
    {
      listeners := listeners + {listener};
    }

    /** `off`: unregistering a listener that is not registered does nothing. */
    method Off(listener: Listener)
      modifies this`listeners
      ensures listeners == old(listeners) - {listener}
    {
      listeners := listeners - {listener};
    }

    /** `popup.addTo(map)`. */
    method OpenPopup(popup: Popup)
      modifies this`popups
      ensures popups == old(popups) + {popup}
    {
      popups := popups + {popup};
    }

    /** `popup.remove()`: removing a popup that is already closed does nothing. */
    method ClosePopup(popup: Popup)
      modifies this`popups
      ensures popups == old(popups) - {popup}
    {
      popups := popups - {popup};
    }
  }
}
