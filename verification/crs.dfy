/** Guessing the coordinate reference system from the combined extent and
    reprojecting when the data does not look like longitude/latitude.

    The transform from EPSG:32631 to EPSG:4326 (`to_crs`) is the parameter
    `project`, applied to every vertex. */
module Crs {
  import opened Seqs
  import opened Geo
  import opened Records

  /** Open longitude and latitude limits of the "already geographic" test. */
  const LonLimit: real := 180.0
  const LatLimit: real := 90.0

  /** Every vertex of every record, record by record. */
  function AllCoords(rs: seq<Record>): (cs: seq<Coord>)
    ensures forall i, k :: 0 <= i < |rs| && 0 <= k < |rs[i].geometry.coords| ==> rs[i].geometry.coords[k] in cs
    ensures forall c :: c in cs ==> exists i :: 0 <= i < |rs| && c in rs[i].geometry.coords
  {
    if |rs| == 0 then []
    else
      var rest := AllCoords(rs[1..]);
      assert forall c :: c in rest ==> exists i :: 0 <= i < |rs| && c in rs[i].geometry.coords by {
        forall c | c in rest ensures exists i :: 0 <= i < |rs| && c in rs[i].geometry.coords {
          var j :| 0 <= j < |rs[1..]| && c in rs[1..][j].geometry.coords;
          assert rs[1..][j] == rs[j + 1];
        }
      }
      rs[0].geometry.coords + rest
  }

  /** The vertex lies strictly inside the longitude/latitude ranges. */
  predicate StrictlyLonLat(c: Coord) {
    -LonLimit < c.x < LonLimit && -LatLimit < c.y < LatLimit
  }

  /** The test on the combined bounds: all four comparisons strict. Without
      any vertex the bounds are NaN and every comparison is false. The test
      holds exactly when there is a vertex and every vertex lies strictly
      inside the longitude/latitude ranges. */
  predicate LooksGeographic(rs: seq<Record>): (g: bool)
    ensures g <==> |AllCoords(rs)| > 0 && forall c :: c in AllCoords(rs) ==> StrictlyLonLat(c)
  {
    var cs := AllCoords(rs);
    match Bounds(cs)
    case None => false
    case Some(b) =>
      BoundsTestIff(cs, b);
      b.minX > -LonLimit && b.maxX < LonLimit && b.minY > -LatLimit && b.maxY < LatLimit
  }

  /** On attained bounds, the four strict tests hold exactly when every
      vertex is strictly inside. */
  lemma BoundsTestIff(cs: seq<Coord>, b: BBox)
    requires Bounds(cs) == Some(b)
    ensures b.minX > -LonLimit && b.maxX < LonLimit && b.minY > -LatLimit && b.maxY < LatLimit
            <==> forall c :: c in cs ==> StrictlyLonLat(c)
  {
    if forall c :: c in cs ==> StrictlyLonLat(c) {
      InsideBoundsInside(cs, b);
    }
    if b.minX > -LonLimit && b.maxX < LonLimit && b.minY > -LatLimit && b.maxY < LatLimit {
      forall c | c in cs ensures StrictlyLonLat(c) {
        var k :| 0 <= k < |cs| && cs[k] == c;
        assert InBox(b, cs[k]);
      }
    }
  }

  /** When every vertex is strictly inside, so are the attained extremes. */
  lemma InsideBoundsInside(cs: seq<Coord>, b: BBox)
    requires Bounds(cs) == Some(b)
    requires forall c :: c in cs ==> StrictlyLonLat(c)
    ensures b.minX > -LonLimit && b.maxX < LonLimit && b.minY > -LatLimit && b.maxY < LatLimit
  {
    var i1 :| 0 <= i1 < |cs| && cs[i1].x == b.minX;
    var i2 :| 0 <= i2 < |cs| && cs[i2].x == b.maxX;
    var i3 :| 0 <= i3 < |cs| && cs[i3].y == b.minY;
    var i4 :| 0 <= i4 < |cs| && cs[i4].y == b.maxY;
    assert StrictlyLonLat(cs[i1]) && StrictlyLonLat(cs[i2]);
    assert StrictlyLonLat(cs[i3]) && StrictlyLonLat(cs[i4]);
  }

  /** `to_crs` on one geometry: every vertex transformed, type and vertex
      count unchanged. */
  function Reproject(g: Geometry, project: Coord -> Coord): (r: Geometry)
    ensures r.kind == g.kind && |r.coords| == |g.coords|
    ensures forall k :: 0 <= k < |g.coords| ==> r.coords[k] == project(g.coords[k])
  {
    Geometry(g.kind, seq(|g.coords|, k requires 0 <= k < |g.coords| => project(g.coords[k])))
  }

  /** Lines 85-93: keep the data when it looks geographic, otherwise treat it
      as EPSG:32631 and reproject every vertex. Only geometries change. */
  function NormaliseCrs(rs: seq<Record>, project: Coord -> Coord): (r: seq<Record>)
    ensures |r| == |rs|
    ensures forall i :: 0 <= i < |rs| ==>
              SameAttributes(r[i], rs[i]) && r[i].geometry.kind == rs[i].geometry.kind
              && |r[i].geometry.coords| == |rs[i].geometry.coords|
    ensures LooksGeographic(rs) ==> r == rs
    ensures !LooksGeographic(rs) ==> forall i, k :: 0 <= i < |rs| && 0 <= k < |rs[i].geometry.coords| ==>
              r[i].geometry.coords[k] == project(rs[i].geometry.coords[k])
  {
    if LooksGeographic(rs) then rs
    else seq(|rs|, i requires 0 <= i < |rs| => rs[i].(geometry := Reproject(rs[i].geometry, project)))
  }

  /** Normalisation keeps every geometry type, so a table of LineStrings
      stays one. */
  lemma NormaliseCrsKeepsLines(rs: seq<Record>, project: Coord -> Coord)
    requires forall i :: 0 <= i < |rs| ==> rs[i].geometry.kind == LineString
    ensures forall i :: 0 <= i < |rs| ==> NormaliseCrs(rs, project)[i].geometry.kind == LineString
  {
  }

  /** Data that looks geographic after normalisation is a fixed point: a
      second normalisation changes nothing. In particular, data that already
      looked geographic is kept as it is by both passes. */
  lemma NormaliseCrsIdempotent(rs: seq<Record>, project: Coord -> Coord)
    requires LooksGeographic(NormaliseCrs(rs, project)) || LooksGeographic(rs)
    ensures NormaliseCrs(NormaliseCrs(rs, project), project) == NormaliseCrs(rs, project)
  {
  }

  /** Data the test classifies as geographic has every vertex strictly inside
      the longitude/latitude ranges, and normalisation keeps it exactly. */
  lemma GeographicKeptInRange(rs: seq<Record>, project: Coord -> Coord)
    requires LooksGeographic(rs)
    ensures forall i, k :: 0 <= i < |rs| && 0 <= k < |rs[i].geometry.coords| ==>
              StrictlyLonLat(NormaliseCrs(rs, project)[i].geometry.coords[k])
  {
  }
}
