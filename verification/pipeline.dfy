/** The whole script from upload to coloured map segments, with the widget
    state and the library calls passed in explicitly. */
module Pipeline {
  import opened Seqs
  import opened Geo
  import opened Records
  import opened Loader
  import opened Crs
  import opened Filters
  import opened Smoothing
  import opened Colours

  /** The foreign library calls the script relies on. */
  datatype Libraries = Libraries(
    parse: string -> Option<Geometry>,           // wkt.loads
    project: Coord -> Coord,                     // to_crs from EPSG:32631 to EPSG:4326
    intersects: (Geometry, BBox) -> bool,        // GeoSeries.intersects(box)
    fit: seq<Coord> -> Option<real -> Coord>)    // splprep(s=0) then splev

  /** The sidebar widgets. */
  datatype Controls = Controls(
    selectAllRoads: bool,
    chosenRoads: set<string>,
    selectAllSpeeds: bool,
    chosenSpeeds: set<int>,
    buckets: BucketSwitches)

  /** One drawn polyline with its colour. */
  datatype Segment = Segment(record: Record, colour: Colour)

  /** The road selection the sidebar yields over the records left after the
      region filter (its options are their road numbers). */
  function EffectiveRoads(inRegion: seq<Record>, ctl: Controls): set<string> {
    Selection(RoadNumbers(inRegion), ctl.selectAllRoads, ctl.chosenRoads)
  }

  /** The speed selection, likewise over the records left after the region
      filter. */
  function EffectiveSpeeds(inRegion: seq<Record>, ctl: Controls): set<int> {
    Selection(SpeedLimits(inRegion), ctl.selectAllSpeeds, ctl.chosenSpeeds)
  }

  /** A record survives steps 3-5: it meets the region, has a non-zero KSI
      count, its road number and speed limit are selected, and the bucket
      step keeps its KSI count. */
  predicate Passes(x: Record, intersects: (Geometry, BBox) -> bool,
                   roads: set<string>, speeds: set<int>, sw: BucketSwitches) {
    && InRegion(x, intersects) && x.ksiCount != 0
    && Selected(x, roads, speeds)
    && KsiKept(sw, x.ksiCount)
  }

  /** Steps 3-5: the region and zero-KSI filter, the road and speed
      selection (whose "select all" options are the values left after the
      region filter), and the KSI buckets. The result is exactly the
      records that pass all three, in order, each with all its duplicates. */
  function SelectRecords(rs: seq<Record>, intersects: (Geometry, BBox) -> bool, ctl: Controls): (r: seq<Record>)
    ensures IsSubsequence(r, rs)
    ensures var inRegion := RegionAndKsiFilter(rs, intersects);
            forall i :: 0 <= i < |r| ==>
              Passes(r[i], intersects, EffectiveRoads(inRegion, ctl), EffectiveSpeeds(inRegion, ctl), ctl.buckets)
    ensures var inRegion := RegionAndKsiFilter(rs, intersects);
            forall x :: x in rs ==>
              multiset(r)[x] ==
                if Passes(x, intersects, EffectiveRoads(inRegion, ctl), EffectiveSpeeds(inRegion, ctl), ctl.buckets)
                then multiset(rs)[x] else 0
  {
    var inRegion := RegionAndKsiFilter(rs, intersects);
    var roads := EffectiveRoads(inRegion, ctl);
    var speeds := EffectiveSpeeds(inRegion, ctl);
    var selected := RoadSpeedFilter(inRegion, roads, speeds);
    var r := KsiBucketFilter(selected, ctl.buckets);
    SubsequenceTransitive(r, selected, inRegion);
    SubsequenceTransitive(r, inRegion, rs);
    SelectRecordsPass(rs, inRegion, selected, r, intersects, roads, speeds, ctl.buckets);
    SelectRecordsMultiplicity(rs, inRegion, selected, r, intersects, roads, speeds, ctl.buckets);
    r
  }

  /** Every record the three steps leave passes all three. */
  lemma SelectRecordsPass(rs: seq<Record>, inRegion: seq<Record>, selected: seq<Record>, r: seq<Record>,
                          intersects: (Geometry, BBox) -> bool, roads: set<string>, speeds: set<int>,
                          sw: BucketSwitches)
    requires inRegion == RegionAndKsiFilter(rs, intersects)
    requires selected == RoadSpeedFilter(inRegion, roads, speeds)
    requires r == KsiBucketFilter(selected, sw)
    ensures forall i :: 0 <= i < |r| ==> Passes(r[i], intersects, roads, speeds, sw)
  {
    SubsequenceElements(selected, inRegion);
    SubsequenceElements(r, selected);
    forall i | 0 <= i < |r| ensures Passes(r[i], intersects, roads, speeds, sw) {
      var x := r[i];
      assert x in selected;
      var j :| 0 <= j < |selected| && selected[j] == x;
      assert x in inRegion;
      var k :| 0 <= k < |inRegion| && inRegion[k] == x;
    }
  }

  /** The three steps together keep a record with all its duplicates when
      it passes all three, and drop it otherwise. */
  lemma SelectRecordsMultiplicity(rs: seq<Record>, inRegion: seq<Record>, selected: seq<Record>, r: seq<Record>,
                                  intersects: (Geometry, BBox) -> bool, roads: set<string>, speeds: set<int>,
                                  sw: BucketSwitches)
    requires inRegion == RegionAndKsiFilter(rs, intersects)
    requires selected == RoadSpeedFilter(inRegion, roads, speeds)
    requires r == KsiBucketFilter(selected, sw)
    ensures forall x :: x in rs ==>
              multiset(r)[x] == if Passes(x, intersects, roads, speeds, sw) then multiset(rs)[x] else 0
  {
    var p := (x: Record) => InRegion(x, intersects) && x.ksiCount != 0;
    var q := (x: Record) => Selected(x, roads, speeds);
    var pq := (x: Record) => p(x) && q(x);
    var b := (x: Record) => KsiKept(sw, x.ksiCount);
    SubsequenceElements(selected, inRegion);
    SubsequenceElements(r, selected);
    SelectionsCompose(rs, inRegion, selected, p, q);
    SelectionsCompose(rs, selected, r, pq, b);
  }

  predicate IsLine(x: Record) {
    x.geometry.kind == LineString
  }

  /** Selecting from LineStrings leaves LineStrings with a non-zero KSI
      count, at most as many as there were. */
  lemma SelectedLines(rs: seq<Record>, intersects: (Geometry, BBox) -> bool, ctl: Controls)
    requires forall i :: 0 <= i < |rs| ==> rs[i].geometry.kind == LineString
    ensures var r := SelectRecords(rs, intersects, ctl);
            |r| <= |rs| && forall i :: 0 <= i < |r| ==> r[i].ksiCount != 0 && r[i].geometry.kind == LineString
  {
    var r := SelectRecords(rs, intersects, ctl);
    SubsequenceAll(r, rs, IsLine);
    SubsequenceElements(r, rs);
  }

  /** Steps 2-6 on a successful load: normalise the CRS, select, smooth. */
  function Draw(loaded: seq<Record>, lib: Libraries, ctl: Controls): (out: seq<Record>)
    requires forall i :: 0 <= i < |loaded| ==> loaded[i].geometry.kind == LineString
    ensures |out| <= |loaded|
    ensures forall i :: 0 <= i < |out| ==> out[i].ksiCount != 0 && out[i].geometry.kind == LineString
  {
    var geographic := NormaliseCrs(loaded, lib.project);
    NormaliseCrsKeepsLines(loaded, lib.project);
    SelectedLines(geographic, lib.intersects, ctl);
    SmoothAll(SelectRecords(geographic, lib.intersects, ctl), DefaultNumPoints, lib.fit)
  }

  /** The filtered and smoothed table handed to the map (steps 1-6). A
      failed load, an empty table, stops the script before step 2. */
  function Process(t: Table, lib: Libraries, ctl: Controls): (out: seq<Record>)
    ensures LoadData(t, lib.parse).LoadFailed? ==> out == []
    ensures |out| <= |t.rows|
    ensures forall i :: 0 <= i < |out| ==> out[i].ksiCount != 0 && out[i].geometry.kind == LineString
  {
    match LoadData(t, lib.parse)
    case LoadFailed(_) => []
    case Loaded(loaded) => Draw(loaded, lib, ctl)
  }

  /** Step 7: every segment drawn with the colour of its KSI count. */
  function Render(rs: seq<Record>): (segs: seq<Segment>)
    ensures |segs| == |rs|
    ensures forall i :: 0 <= i < |rs| ==> segs[i].record == rs[i] && segs[i].colour == KsiColour(rs[i].ksiCount)
  {
    seq(|rs|, i requires 0 <= i < |rs| => Segment(rs[i], KsiColour(rs[i].ksiCount)))
  }

  function Run(t: Table, lib: Libraries, ctl: Controls): (segs: seq<Segment>)
    ensures LoadData(t, lib.parse).LoadFailed? ==> segs == []
    ensures GeometryColumn !in t.columns ==> segs == []
    ensures |segs| <= |t.rows|
    ensures forall i :: 0 <= i < |segs| ==> segs[i].record.ksiCount != 0
  {
    Render(Process(t, lib, ctl))
  }

  /** Both "select all" boxes and all three buckets ticked: the defaults. */
  const DefaultControls: Controls := Controls(true, {}, true, {}, BucketSwitches(true, true, true))

  /** The records the scenario's two LineString rows become. */
  const ScenarioRecord1: Record := Record(ScenarioGeometry1, "A12", 30, 3)
  const ScenarioRecord2: Record := Record(ScenarioGeometry2, "A12", 30, 0)

  predicate ScenarioLibraries(lib: Libraries) {
    && lib.parse(ScenarioWkt1) == Some(ScenarioGeometry1)
    && lib.parse(ScenarioWkt2) == Some(ScenarioGeometry2)
    && lib.parse(ScenarioWkt3) == Some(ScenarioGeometry3)
  }

  lemma ScenarioLoads(lib: Libraries)
    requires ScenarioLibraries(lib)
    ensures LoadData(ScenarioTable, lib.parse) == Loaded([ScenarioRecord1, ScenarioRecord2])
  {
    var t := ScenarioTable;
    var rows := t.rows;
    assert IsLineRow(rows[0], lib.parse);
    assert AllParse(rows, lib.parse);
    assert AttributeColumns <= t.columns;
    LoadDataIsRowwise(t, lib.parse);
    assert rows[1..][1..] == [rows[2]];
    Strings.StripStrippedIsIdentity("A12");
    assert LoadRowwise(rows[2..], lib.parse) == [];
  }

  lemma ScenarioIsGeographic()
    ensures LooksGeographic([ScenarioRecord1, ScenarioRecord2])
  {
    var rs := [ScenarioRecord1, ScenarioRecord2];
    assert forall i, k :: 0 <= i < |rs| && 0 <= k < |rs[i].geometry.coords| ==>
             StrictlyLonLat(rs[i].geometry.coords[k]);
    var cs := AllCoords(rs);
    assert rs[0].geometry.coords[0] in cs;
    forall c | c in cs ensures StrictlyLonLat(c) {
      var i :| 0 <= i < |rs| && c in rs[i].geometry.coords;
    }
  }

  lemma ScenarioSelects(intersects: (Geometry, BBox) -> bool)
    requires intersects(ScenarioGeometry1, RegionOfInterest)
    ensures SelectRecords([ScenarioRecord1, ScenarioRecord2], intersects, DefaultControls) == [ScenarioRecord1]
  {
    var rs := [ScenarioRecord1, ScenarioRecord2];
    var inRegion := RegionAndKsiFilter(rs, intersects);
    assert inRegion == [ScenarioRecord1] by {
      SubsequenceElements(inRegion, rs);
      assert ScenarioRecord1 in inRegion;
      assert ScenarioRecord2 !in inRegion;
      assert forall x :: x in inRegion ==> x == ScenarioRecord1;
    }
    SelectAllKeepsEverything(inRegion, {}, {});
    AllBucketsKeepPositive(inRegion);
  }

  /** An upload of three rows: a five-vertex LineString ("A12", 30, KSI 3),
      a two-vertex LineString ("A12", 30, KSI 0) and a Point ("B1", 40,
      KSI 10), all inside the region. With the default controls exactly the
      first row is drawn, yellow, resampled to 500 vertices. */
  lemma ThreeRowScenario(lib: Libraries)
    requires ScenarioLibraries(lib)
    requires lib.intersects(ScenarioGeometry1, RegionOfInterest)
    requires lib.fit(ScenarioGeometry1.coords).Some?
    ensures var segs := Run(ScenarioTable, lib, DefaultControls);
            |segs| == 1 && segs[0].colour == Yellow
            && segs[0].record.roadNumber == "A12" && segs[0].record.ksiCount == 3
            && |segs[0].record.geometry.coords| == 500
  {
    ScenarioLoads(lib);
    ScenarioIsGeographic();
    ScenarioSelects(lib.intersects);
    assert Process(ScenarioTable, lib, DefaultControls) == SmoothAll([ScenarioRecord1], DefaultNumPoints, lib.fit);
  }

  const ScenarioWkt1: string := "LINESTRING (0.1 51.5, 0.2 51.6, 0.3 51.7, 0.4 51.8, 0.5 51.9)"
  const ScenarioWkt2: string := "LINESTRING (0.1 51.5, 0.2 51.6)"
  const ScenarioWkt3: string := "POINT (0.3 51.7)"

  const ScenarioGeometry1: Geometry := Geometry(LineString,
    [Coord(0.1, 51.5), Coord(0.2, 51.6), Coord(0.3, 51.7), Coord(0.4, 51.8), Coord(0.5, 51.9)])
  const ScenarioGeometry2: Geometry := Geometry(LineString, [Coord(0.1, 51.5), Coord(0.2, 51.6)])
  const ScenarioGeometry3: Geometry := Geometry(Point, [Coord(0.3, 51.7)])

  const ScenarioTable: Table := Table(
    {GeometryColumn, RoadNumberColumn, SpeedLimitColumn, KsiColumn},
    [ RawRow(Some(ScenarioWkt1), Some("A12"), Some(30), Some(3)),
      RawRow(Some(ScenarioWkt2), Some("A12"), Some(30), Some(0)),
      RawRow(Some(ScenarioWkt3), Some("B1"), Some(40), Some(10)) ])
}
