/**
 * Ray-casting point-in-polygon tests used to decide whether a route
 * segment lies inside a geofence (src/main/MainPage.jsx, pointInRing and
 * pointInPolygon). Coordinates are reals: x is the longitude, y the latitude.
 */
module Geofence {
  import opened Wrappers

  /** A ring vertex `[lon, lat]`. */
  datatype Vertex = Vertex(x: real, y: real)

  /** A ring: the ordered vertices of a closed line. */
  type Ring = seq<Vertex>

  /** The coordinates of one polygon: an outer ring followed by its holes. */
  datatype PolygonRings = PolygonRings(outer: Ring, holes: seq<Ring>)

  /** A geofence geometry in GeoJSON form. */
  datatype Geometry =
    | Polygon(rings: PolygonRings)
    | MultiPolygon(polygons: seq<PolygonRings>)
    | OtherGeometry(kind: string)

  /** The vertex the loop pairs with vertex `i`: the one before it, cyclically. */
  function PrevIndex(n: nat, i: nat): (j: nat)
    requires i < n
    ensures j < n
    ensures (j + 1) % n == i
  {
    if i == 0 then n - 1 else i - 1
  }

  /** The edge from `a` to `b` has one end above the latitude `lat` and one end not above it. */
  predicate Straddles(lat: real, a: Vertex, b: Vertex) {
    (a.y > lat) != (b.y > lat)
  }

  /** The longitude at which the line through `a` and `b` meets the latitude `lat`. */
  function CrossingLongitude(lat: real, a: Vertex, b: Vertex): real
    requires a.y != b.y
  {
    (b.x - a.x) * (lat - a.y) / (b.y - a.y) + a.x
  }

  /**
   * The horizontal ray from (lon, lat) towards growing longitude crosses
   * the edge a-b. The crossing longitude is only computed when the edge
   * straddles `lat`, so its divisor `b.y - a.y` is never zero.
   */
  predicate EdgeCrosses(lon: real, lat: real, a: Vertex, b: Vertex) {
    Straddles(lat, a, b) && lon < CrossingLongitude(lat, a, b)
  }

  /** The number of edges (ring[i], ring[i - 1 cyclically]), for i < n, that the ray crosses. */
  function Crossings(lon: real, lat: real, ring: Ring, n: nat): nat
    requires n <= |ring|
  {
    if n == 0 then 0
    else Crossings(lon, lat, ring, n - 1)
         + (if EdgeCrosses(lon, lat, ring[n - 1], ring[PrevIndex(|ring|, n - 1)]) then 1 else 0)
  }

  /** Crossing parity over all edges: the ray-casting definition of "inside the ring". */
  predicate InRing(lon: real, lat: real, ring: Ring) {
    Crossings(lon, lat, ring, |ring|) % 2 == 1
  }

  /** pointInRing: one pass over the edges, toggling `inside` at each crossing. */
  method PointInRing(lon: real, lat: real, ring: Ring) returns (inside: bool)
    ensures inside <==> InRing(lon, lat, ring)
    ensures |ring| == 0 ==> !inside
  {
    inside := false;
    var i: int, j: int := 0, |ring| - 1;
    while i < |ring|
      invariant 0 <= i <= |ring|
      invariant i < |ring| ==> j == PrevIndex(|ring|, i)
      invariant inside <==> Crossings(lon, lat, ring, i) % 2 == 1
    {
      var yi := ring[i].y;
      var yj := ring[j].y;
      var intersect := ((yi > lat) != (yj > lat)) && (lon < CrossingLongitude(lat, ring[i], ring[j]));
      if intersect {
        inside := !inside;
      }
      j, i := i, i + 1;
    }
  }

  /** `rings.some(hole => pointInRing(lon, lat, hole))`. */
  function AnyRingContains(lon: real, lat: real, rings: seq<Ring>): (r: bool)
    ensures r <==> exists k :: 0 <= k < |rings| && InRing(lon, lat, rings[k])
  {
    if rings == [] then false
    else
      var rest := AnyRingContains(lon, lat, rings[1..]);
      assert rest <==> exists k :: 1 <= k < |rings| && InRing(lon, lat, rings[k]) by {
        forall k | 1 <= k < |rings| ensures rings[k] == rings[1..][k - 1] { }
      }
      InRing(lon, lat, rings[0]) || rest
  }

  /** One polygon contains the point: inside its outer ring and inside none of its holes. */
  function PolygonContains(lon: real, lat: real, p: PolygonRings): (r: bool)
    ensures r <==> InRing(lon, lat, p.outer)
                   && forall k :: 0 <= k < |p.holes| ==> !InRing(lon, lat, p.holes[k])
  {
    if !InRing(lon, lat, p.outer) then false
    else !AnyRingContains(lon, lat, p.holes)
  }

  /** `polygons.some(poly => ...)` over the components of a MultiPolygon. */
  function AnyPolygonContains(lon: real, lat: real, polygons: seq<PolygonRings>): (r: bool)
    ensures r <==> exists k :: 0 <= k < |polygons| && PolygonContains(lon, lat, polygons[k])
  {
    if polygons == [] then false
    else
      var rest := AnyPolygonContains(lon, lat, polygons[1..]);
      assert rest <==> exists k :: 1 <= k < |polygons| && PolygonContains(lon, lat, polygons[k]) by {
        forall k | 1 <= k < |polygons| ensures polygons[k] == polygons[1..][k - 1] { }
      }
      PolygonContains(lon, lat, polygons[0]) || rest
  }

  /**
   * pointInPolygon: a missing geometry and any type other than Polygon and
   * MultiPolygon contain nothing.
   */
  function PointInPolygon(lon: real, lat: real, geometry: Option<Geometry>): (r: bool)
    ensures geometry.None? ==> !r
    ensures geometry.Some? && geometry.value.OtherGeometry? ==> !r
    ensures geometry.Some? && geometry.value.Polygon? ==>
              (r <==> InRing(lon, lat, geometry.value.rings.outer)
                      && forall k :: 0 <= k < |geometry.value.rings.holes| ==>
                           !InRing(lon, lat, geometry.value.rings.holes[k]))
    ensures geometry.Some? && geometry.value.MultiPolygon? ==>
              (r <==> exists k :: 0 <= k < |geometry.value.polygons|
                                  && PolygonContains(lon, lat, geometry.value.polygons[k]))
  {
    match geometry
    case None => false
    case Some(Polygon(p)) => PolygonContains(lon, lat, p)
    case Some(MultiPolygon(ps)) => AnyPolygonContains(lon, lat, ps)
    case Some(OtherGeometry(_)) => false
  }

  // Properties of the ring test

  /** The crossing longitude of a straddling edge lies between the edge's two longitudes. */
  lemma CrossingWithinEdge(lat: real, a: Vertex, b: Vertex)
    requires Straddles(lat, a, b)
    ensures a.x <= b.x ==> a.x <= CrossingLongitude(lat, a, b) <= b.x
    ensures b.x <= a.x ==> b.x <= CrossingLongitude(lat, a, b) <= a.x
  {
    var d, num, den := b.x - a.x, lat - a.y, b.y - a.y;
    var t := num / den;
    assert t * den == num;
    assert 0.0 <= t <= 1.0 by {
      if a.y > lat {
        assert den < 0.0 && num < 0.0 && den <= num;
      } else {
        assert den > 0.0 && num >= 0.0 && num < den;
      }
    }
    assert (d * t) * den == d * num;
    assert CrossingLongitude(lat, a, b) == d * t + a.x;
    assert d * (1.0 - t) == d - d * t;
    if a.x <= b.x {
      assert d * t >= 0.0 && d * (1.0 - t) >= 0.0;
    } else {
      assert d * t <= 0.0 && d * (1.0 - t) <= 0.0;
    }
  }

  /** The ring lies entirely on one side of the point: north, south, east or west of it. */
  predicate OutsideBox(lon: real, lat: real, ring: Ring) {
    || (forall k :: 0 <= k < |ring| ==> ring[k].y <= lat)
    || (forall k :: 0 <= k < |ring| ==> ring[k].y > lat)
    || (forall k :: 0 <= k < |ring| ==> ring[k].x <= lon)
    || (forall k :: 0 <= k < |ring| ==> ring[k].x > lon)
  }

  /** When no edge among the first n is crossed, the count is zero. */
  lemma {:induction false} NoCrossedEdge(lon: real, lat: real, ring: Ring, n: nat)
    requires n <= |ring|
    requires forall k :: 0 <= k < n ==> !EdgeCrosses(lon, lat, ring[k], ring[PrevIndex(|ring|, k)])
    ensures Crossings(lon, lat, ring, n) == 0
  {
    if n > 0 {
      NoCrossedEdge(lon, lat, ring, n - 1);
    }
  }

  /**
   * For a point west of every vertex the ray crosses exactly the straddling
   * edges, and along the open path ring[last], ring[0], ..., ring[n-1] their
   * number is odd exactly when the path ends on the other side of `lat`.
   */
  lemma {:induction false} WestCrossingParity(lon: real, lat: real, ring: Ring, n: nat)
    requires 1 <= n <= |ring|
    requires forall k :: 0 <= k < |ring| ==> ring[k].x > lon
    ensures Crossings(lon, lat, ring, n) % 2
            == if (ring[|ring| - 1].y > lat) != (ring[n - 1].y > lat) then 1 else 0
  {
    var a, b := ring[n - 1], ring[PrevIndex(|ring|, n - 1)];
    if Straddles(lat, a, b) {
      CrossingWithinEdge(lat, a, b);
    }
    assert EdgeCrosses(lon, lat, a, b) <==> Straddles(lat, a, b);
    if n > 1 {
      WestCrossingParity(lon, lat, ring, n - 1);
    }
  }

  /** A point outside the ring's bounding box is never inside the ring. */
  lemma OutsideBoxIsOutside(lon: real, lat: real, ring: Ring)
    requires OutsideBox(lon, lat, ring)
    ensures !InRing(lon, lat, ring)
  {
    if |ring| == 0 {
    } else if forall k :: 0 <= k < |ring| ==> ring[k].x > lon {
      WestCrossingParity(lon, lat, ring, |ring|);
    } else {
      forall k | 0 <= k < |ring|
        ensures !EdgeCrosses(lon, lat, ring[k], ring[PrevIndex(|ring|, k)])
      {
        var a, b := ring[k], ring[PrevIndex(|ring|, k)];
        if Straddles(lat, a, b) {
          CrossingWithinEdge(lat, a, b);
        }
      }
      NoCrossedEdge(lon, lat, ring, |ring|);
    }
  }

  /** The square with corners (0, 0) and (10, 10), and a hole (4, 4)-(6, 6) inside it. */
  function Square(): Ring {
    [Vertex(0.0, 0.0), Vertex(0.0, 10.0), Vertex(10.0, 10.0), Vertex(10.0, 0.0)]
  }

  function Hole(): Ring {
    [Vertex(4.0, 4.0), Vertex(4.0, 6.0), Vertex(6.0, 6.0), Vertex(6.0, 4.0)]
  }

  /** (5, 5) is inside the square; the ray crosses only its eastern edge. */
  lemma SquareContainsCentre()
    ensures PointInPolygon(5.0, 5.0, Some(Polygon(PolygonRings(Square(), []))))
  {
    assert Crossings(5.0, 5.0, Square(), 1) == 0;
    assert Crossings(5.0, 5.0, Square(), 2) == 0;
    assert Crossings(5.0, 5.0, Square(), 3) == 0;
    assert Crossings(5.0, 5.0, Square(), 4) == 1;
  }

  /** (15, 15) is outside the square. */
  lemma SquareExcludesFarPoint()
    ensures !PointInPolygon(15.0, 15.0, Some(Polygon(PolygonRings(Square(), []))))
  {
    OutsideBoxIsOutside(15.0, 15.0, Square());
  }

  /** (5, 5) is inside the square but also inside its hole, so the polygon does not contain it. */
  lemma HoleExcludesCentre()
    ensures !PointInPolygon(5.0, 5.0, Some(Polygon(PolygonRings(Square(), [Hole()]))))
  {
    assert Crossings(5.0, 5.0, Hole(), 1) == 0;
    assert Crossings(5.0, 5.0, Hole(), 2) == 0;
    assert Crossings(5.0, 5.0, Hole(), 3) == 0;
    assert Crossings(5.0, 5.0, Hole(), 4) == 1;
    assert InRing(5.0, 5.0, [Hole()][0]);
  }
}
