/** Geometries as the dashboard sees them through shapely: a geometry type tag
    and the ordered list of its vertices, plus axis-aligned boxes. Coordinates
    are exact reals; floating-point rounding and NaN are not modelled. */
module Geo {
  import opened Seqs

  datatype Coord = Coord(x: real, y: real)

  /** The `geom_type` names shapely reports. */
  datatype GeomType =
    | LineString | LinearRing | Point | Polygon
    | MultiPoint | MultiLineString | MultiPolygon | GeometryCollection

  /** A parsed geometry: its type and its vertices in order. */
  datatype Geometry = Geometry(kind: GeomType, coords: seq<Coord>)

  /** An axis-aligned box, `shapely.geometry.box(minx, miny, maxx, maxy)`. */
  datatype BBox = BBox(minX: real, minY: real, maxX: real, maxY: real)

  predicate InBox(b: BBox, c: Coord) {
    b.minX <= c.x <= b.maxX && b.minY <= c.y <= b.maxY
  }

  /** The fixed region of interest (Essex), in degrees. */
  const South: real := 51.2
  const North: real := 52.3
  const West: real := -0.2
  const East: real := 1.5
  const RegionOfInterest: BBox := BBox(West, South, East, North)

  /** The smallest box holding every coordinate of `cs`; `None` when `cs` is
      empty (shapely reports NaN bounds for an empty geometry, and pandas'
      min/max skip them). */
  function Bounds(cs: seq<Coord>): (r: Option<BBox>)
    ensures r.None? <==> |cs| == 0
    ensures r.Some? ==> forall i :: 0 <= i < |cs| ==> InBox(r.value, cs[i])
    ensures r.Some? ==> exists i :: 0 <= i < |cs| && cs[i].x == r.value.minX
    ensures r.Some? ==> exists i :: 0 <= i < |cs| && cs[i].x == r.value.maxX
    ensures r.Some? ==> exists i :: 0 <= i < |cs| && cs[i].y == r.value.minY
    ensures r.Some? ==> exists i :: 0 <= i < |cs| && cs[i].y == r.value.maxY
  {
    if |cs| == 0 then None
    else
      var c := cs[0];
      match Bounds(cs[1..])
      case None => Some(BBox(c.x, c.y, c.x, c.y))
      case Some(b) =>
        Some(BBox(Min(c.x, b.minX), Min(c.y, b.minY), Max(c.x, b.maxX), Max(c.y, b.maxY)))
  }

  function Min(a: real, b: real): real {
    if a <= b then a else b
  }

  function Max(a: real, b: real): real {
    if a >= b then a else b
  }
}
