/** Spline smoothing of the road geometries (`smooth_geometry` and its
    application to every row).

    The interpolating spline fit (`splprep` with `s=0`) is the parameter
    `fit`: `None` stands for the fit raising, `Some(curve)` for a fitted
    curve that `splev` evaluates at a parameter in [0, 1]. */
module Smoothing {
  import opened Seqs
  import opened Geo
  import opened Records

  /** `num_points` at the call site (and the default). */
  const DefaultNumPoints: int := 500

  /** `np.linspace(0, 1.0, num=n)` for `n >= 0`: `n` evenly spaced
      parameters from 0 to 1 inclusive (just 0 when `n` is 1). */
  function Linspace(n: nat): (us: seq<real>)
    ensures |us| == n
    ensures forall i :: 0 <= i < n ==> 0.0 <= us[i] <= 1.0
    ensures n >= 1 ==> us[0] == 0.0
    ensures n >= 2 ==> us[n - 1] == 1.0
    ensures forall i, j :: 0 <= i < j < n ==> us[i] < us[j]
  {
    if n == 1 then [0.0]
    else
      RampBounded(n);
      RampIncreasing(n);
      RampEnds(n);
      Ramp(n)
  }

  /** The `n` values `i / (n - 1)`, for `n` other than 1. */
  function Ramp(n: nat): seq<real>
    requires n != 1
  {
    seq(n, i requires 0 <= i < n => i as real / (n - 1) as real)
  }

  lemma RampBounded(n: nat)
    requires n != 1
    ensures forall i :: 0 <= i < n ==> 0.0 <= Ramp(n)[i] <= 1.0
  {
    forall i | 0 <= i < n ensures 0.0 <= Ramp(n)[i] <= 1.0 {
      DivideAtMostOne(i as real, (n - 1) as real);
    }
  }

  lemma RampIncreasing(n: nat)
    requires n != 1
    ensures forall i, j :: 0 <= i < j < n ==> Ramp(n)[i] < Ramp(n)[j]
  {
    forall i, j | 0 <= i < j < n ensures Ramp(n)[i] < Ramp(n)[j] {
      DivideMonotonic(i as real, j as real, (n - 1) as real);
    }
  }

  lemma RampEnds(n: nat)
    requires n != 1
    ensures n >= 1 ==> Ramp(n)[0] == 0.0
    ensures n >= 2 ==> Ramp(n)[n - 1] == 1.0
  {
    if n >= 2 {
      var d := (n - 1) as real;
      assert Ramp(n)[n - 1] == d / d;
      DivideSelf(d);
    }
  }

  lemma DivideSelf(d: real)
    requires d > 0.0
    ensures d / d == 1.0
  {
    assert d / d * d == d;
  }

  lemma DivideMonotonic(a: real, b: real, d: real)
    requires a < b && d > 0.0
    ensures a / d < b / d
  {
    assert b / d - a / d == (b - a) / d;
  }

  lemma DivideAtMostOne(a: real, d: real)
    requires 0.0 <= a <= d && d > 0.0
    ensures 0.0 <= a / d <= 1.0
  {
    assert a / d * d == a;
  }

  /** The geometry is a LineString with more than two vertices, the only
      case in which a fit is attempted. */
  predicate Smoothable(g: Geometry) {
    g.kind == LineString && |g.coords| > 2
  }

  /** `smooth_geometry(geom, smoothing_factor=0, num_points)`. Outside the
      smoothable case the geometry is returned as it is. Inside it, every
      exception falls back to the original: `np.linspace` rejects a negative
      count, the fit may raise, and a LineString cannot be built from exactly
      one vertex. Otherwise the result is the curve sampled at
      `Linspace(numPoints)` (an empty LineString when `numPoints` is 0). */
  function SmoothGeometry(g: Geometry, numPoints: int, fit: seq<Coord> -> Option<real -> Coord>): (r: Geometry)
    ensures !Smoothable(g) ==> r == g
    ensures numPoints < 0 || numPoints == 1 || fit(g.coords).None? ==> r == g
    ensures r == g || (r.kind == LineString && |r.coords| == numPoints)
    ensures Smoothable(g) && numPoints >= 0 && numPoints != 1 && fit(g.coords).Some? ==>
              r.kind == LineString && |r.coords| == numPoints
              && forall i :: 0 <= i < numPoints ==> r.coords[i] == fit(g.coords).value(Linspace(numPoints)[i])
  {
    if Smoothable(g) then
      if numPoints < 0 then g
      else
        match fit(g.coords)
        case None => g
        case Some(curve) =>
          var us := Linspace(numPoints);
          var out := seq(|us|, i requires 0 <= i < |us| => curve(us[i]));
          if |out| == 1 then g else Geometry(LineString, out)
    else g
  }

  /** The fit interpolates its first and last vertex, as an `s=0` spline
      does; then smoothing keeps both ends of the road in place. */
  lemma SmoothingKeepsEndpoints(g: Geometry, numPoints: int, fit: seq<Coord> -> Option<real -> Coord>)
    requires Smoothable(g) && numPoints >= 2 && fit(g.coords).Some?
    requires fit(g.coords).value(0.0) == g.coords[0]
    requires fit(g.coords).value(1.0) == g.coords[|g.coords| - 1]
    ensures var r := SmoothGeometry(g, numPoints, fit);
            r.coords[0] == g.coords[0] && r.coords[|r.coords| - 1] == g.coords[|g.coords| - 1]
  {
  }

  /** The geometry column mapped through `SmoothGeometry`: one output record
      per input record, in order, with only the geometry possibly replaced,
      and every smoothable line whose fit succeeds resampled. */
  function SmoothAll(rs: seq<Record>, numPoints: int, fit: seq<Coord> -> Option<real -> Coord>): (r: seq<Record>)
    ensures |r| == |rs|
    ensures forall i :: 0 <= i < |rs| ==>
              SameAttributes(r[i], rs[i]) && r[i].geometry.kind == rs[i].geometry.kind
              && (r[i].geometry == rs[i].geometry || |r[i].geometry.coords| == numPoints)
    ensures forall i :: 0 <= i < |rs| && !Smoothable(rs[i].geometry) ==> r[i] == rs[i]
    ensures forall i :: 0 <= i < |rs| && fit(rs[i].geometry.coords).None? ==> r[i] == rs[i]
    ensures forall i :: 0 <= i < |rs| && Smoothable(rs[i].geometry) && numPoints >= 0 && numPoints != 1
                        && fit(rs[i].geometry.coords).Some?
                        ==> |r[i].geometry.coords| == numPoints
    ensures forall i :: 0 <= i < |rs| ==> r[i].geometry == SmoothGeometry(rs[i].geometry, numPoints, fit)
  {
    seq(|rs|, i requires 0 <= i < |rs| => rs[i].(geometry := SmoothGeometry(rs[i].geometry, numPoints, fit)))
  }
}
