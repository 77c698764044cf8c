/** Loading the uploaded table into road-segment records (`load_data`).

    The WKT parser is a parameter `parse`: `None` stands for `wkt.loads`
    raising. The script applies `wkt.loads` to the whole geometry column at
    once, so a single unparsable (or missing) cell raises out of the column
    conversion and the whole load ends in the catch-all handler with an empty
    table; the offending row is not dropped on its own. */
module Loader {
  import opened Seqs
  import opened Strings
  import opened Geo
  import opened Records

  /** The road number a missing cell becomes. */
  const UnknownRoad: string := "Unknown"

  /** Why the load produced an empty table. `MissingColumn` is the `KeyError`
      raised when a non-geometry column the script reads is absent. */
  datatype LoadError =
    | MissingGeometryColumn
    | UnparsableGeometry
    | NoLineStrings
    | MissingColumn(name: string)

  datatype LoadResult = Loaded(records: seq<Record>) | LoadFailed(error: LoadError)

  /** The table the rest of the script continues with: every failure yields an
      empty GeoDataFrame. */
  function Frame(l: LoadResult): seq<Record> {
    match l
    case Loaded(rs) => rs
    case LoadFailed(_) => []
  }

  /** `wkt.loads` on one cell; a missing cell does not parse. */
  function ParseCell(cell: Option<string>, parse: string -> Option<Geometry>): Option<Geometry> {
    match cell
    case None => None
    case Some(w) => parse(w)
  }

  predicate Parses(row: RawRow, parse: string -> Option<Geometry>) {
    ParseCell(row.geometry, parse).Some?
  }

  /** The row's geometry parses and is a LineString. */
  predicate IsLineRow(row: RawRow, parse: string -> Option<Geometry>) {
    match ParseCell(row.geometry, parse)
    case None => false
    case Some(g) => g.kind == LineString
  }

  /** `df['geometry'].apply(wkt.loads)`: all geometries, or `None` as soon as
      one cell fails. */
  function ParseColumn(rows: seq<RawRow>, parse: string -> Option<Geometry>): (r: Option<seq<Geometry>>)
    ensures r.Some? <==> forall i :: 0 <= i < |rows| ==> Parses(rows[i], parse)
    ensures r.Some? ==> |r.value| == |rows|
    ensures r.Some? ==> forall i :: 0 <= i < |rows| ==> ParseCell(rows[i].geometry, parse) == Some(r.value[i])
  {
    if |rows| == 0 then Some([])
    else
      match ParseCell(rows[0].geometry, parse)
      case None => None
      case Some(g) =>
        match ParseColumn(rows[1..], parse)
        case None => None
        case Some(gs) => Some([g] + gs)
  }

  /** A row together with its parsed geometry. */
  datatype ParsedRow = ParsedRow(row: RawRow, geometry: Geometry)

  predicate IsLineParsed(p: ParsedRow) {
    p.geometry.kind == LineString
  }

  function Pair(rows: seq<RawRow>, gs: seq<Geometry>): (ps: seq<ParsedRow>)
    requires |rows| == |gs|
  {
    seq(|rows|, i requires 0 <= i < |rows| => ParsedRow(rows[i], gs[i]))
  }

  /** The normalisation of one kept row: missing road number becomes
      "Unknown" before stripping, missing speed limit and KSI count become 0. */
  function ToRecord(row: RawRow, g: Geometry): (r: Record)
    ensures r.geometry == g
    ensures IsStripped(r.roadNumber)
    ensures row.roadNumber.None? ==> r.roadNumber == UnknownRoad
    ensures row.roadNumber.Some? ==> r.roadNumber == Strip(row.roadNumber.value)
    ensures r.speedLimit == if row.speedLimit.Some? then row.speedLimit.value else 0
    ensures r.ksiCount == if row.ksiCount.Some? then row.ksiCount.value else 0
  {
    var road := Strip(row.roadNumber.GetOr(UnknownRoad));
    assert row.roadNumber.None? ==> road == UnknownRoad by {
      if row.roadNumber.None? {
        StripStrippedIsIdentity(UnknownRoad);
      }
    }
    Record(g, road, row.speedLimit.GetOr(0), row.ksiCount.GetOr(0))
  }

  function ToRecords(ps: seq<ParsedRow>): (rs: seq<Record>)
    ensures |rs| == |ps|
    ensures forall i :: 0 <= i < |ps| ==> rs[i] == ToRecord(ps[i].row, ps[i].geometry)
  {
    if |ps| == 0 then [] else [ToRecord(ps[0].row, ps[0].geometry)] + ToRecords(ps[1..])
  }

  /** Some parsed row is a LineString exactly when some row of the table is. */
  lemma LinesFoundIff(rows: seq<RawRow>, gs: seq<Geometry>, parse: string -> Option<Geometry>)
    requires |rows| == |gs|
    requires forall i :: 0 <= i < |rows| ==> ParseCell(rows[i].geometry, parse) == Some(gs[i])
    ensures |Filter(Pair(rows, gs), IsLineParsed)| > 0 <==> HasLineRow(rows, parse)
  {
    var ps := Pair(rows, gs);
    var lines := Filter(ps, IsLineParsed);
    if |lines| > 0 {
      assert lines[0] in ps;
    }
    if HasLineRow(rows, parse) {
      var i :| 0 <= i < |rows| && IsLineRow(rows[i], parse);
      assert ps[i] in ps;
    }
  }

  lemma ToRecordsCons(p: ParsedRow, ps: seq<ParsedRow>)
    ensures ToRecords([p] + ps) == [ToRecord(p.row, p.geometry)] + ToRecords(ps)
  {
    assert ([p] + ps)[1..] == ps;
  }

  /** Every geometry cell of `rows` parses. */
  predicate AllParse(rows: seq<RawRow>, parse: string -> Option<Geometry>) {
    forall i :: 0 <= i < |rows| ==> Parses(rows[i], parse)
  }

  /** Some row of `rows` holds a LineString. */
  predicate HasLineRow(rows: seq<RawRow>, parse: string -> Option<Geometry>) {
    exists i :: 0 <= i < |rows| && IsLineRow(rows[i], parse)
  }

  /** The attribute columns the script reads after the geometry column. */
  const AttributeColumns: set<string> := {RoadNumberColumn, SpeedLimitColumn, KsiColumn}

  /** An attribute column the script reads (lines 70-72) that the table
      lacks, if any; reading it raises `KeyError`. */
  function MissingAttribute(columns: set<string>): (m: Option<string>)
    ensures m.None? <==> AttributeColumns <= columns
    ensures m.Some? ==> m.value in AttributeColumns && m.value !in columns
  {
    if RoadNumberColumn !in columns then Some(RoadNumberColumn)
    else if SpeedLimitColumn !in columns then Some(SpeedLimitColumn)
    else if KsiColumn !in columns then Some(KsiColumn)
    else None
  }

  /** The part of `load_data` after the geometry column has been parsed into
      `gs`: keep the LineString rows, fail if none is left, then normalise the
      three attribute columns, each of which must exist. */
  function LoadLines(columns: set<string>, rows: seq<RawRow>, gs: seq<Geometry>,
                     parse: string -> Option<Geometry>): (r: LoadResult)
    requires |rows| == |gs|
    requires forall i :: 0 <= i < |rows| ==> ParseCell(rows[i].geometry, parse) == Some(gs[i])
    ensures !HasLineRow(rows, parse) ==> r == LoadFailed(NoLineStrings)
    ensures r.Loaded? <==> HasLineRow(rows, parse) && AttributeColumns <= columns
    ensures r.Loaded? ==> 0 < |r.records| <= |rows|
    ensures r.Loaded? ==> forall i :: 0 <= i < |r.records| ==>
              r.records[i].geometry.kind == LineString && IsStripped(r.records[i].roadNumber)
  {
    var lines := Filter(Pair(rows, gs), IsLineParsed);
    LinesFoundIff(rows, gs, parse);
    if |lines| == 0 then LoadFailed(NoLineStrings)
    else
      match MissingAttribute(columns)
      case Some(c) => LoadFailed(MissingColumn(c))
      case None =>
        var rs := ToRecords(lines);
        assert forall i :: 0 <= i < |rs| ==> rs[i].geometry.kind == LineString by {
          forall i | 0 <= i < |rs| ensures rs[i].geometry.kind == LineString {
            assert IsLineParsed(lines[i]);
          }
        }
        Loaded(rs)
  }

  /** `load_data`: check for the geometry column, parse every cell (one
      failure fails the load), then `LoadLines`. */
  function LoadData(t: Table, parse: string -> Option<Geometry>): (r: LoadResult)
    ensures GeometryColumn !in t.columns ==> r == LoadFailed(MissingGeometryColumn)
    ensures GeometryColumn in t.columns && !AllParse(t.rows, parse) ==> r == LoadFailed(UnparsableGeometry)
    ensures GeometryColumn in t.columns && AllParse(t.rows, parse) && !HasLineRow(t.rows, parse)
            ==> r == LoadFailed(NoLineStrings)
    ensures r.Loaded? <==>
              GeometryColumn in t.columns && AllParse(t.rows, parse) && HasLineRow(t.rows, parse)
              && AttributeColumns <= t.columns
    ensures r.Loaded? ==> 0 < |r.records| <= |t.rows|
    ensures r.Loaded? ==> forall i :: 0 <= i < |r.records| ==>
              r.records[i].geometry.kind == LineString && IsStripped(r.records[i].roadNumber)
  {
    if GeometryColumn !in t.columns then LoadFailed(MissingGeometryColumn)
    else
      match ParseColumn(t.rows, parse)
      case None => LoadFailed(UnparsableGeometry)
      case Some(gs) => LoadLines(t.columns, t.rows, gs, parse)
  }

  /** Reference definition, one row at a time: each LineString row becomes a
      record, every other row is skipped. */
  function LoadRowwise(rows: seq<RawRow>, parse: string -> Option<Geometry>): seq<Record>
    requires AllParse(rows, parse)
  {
    if |rows| == 0 then []
    else
      assert Parses(rows[0], parse);
      var g := ParseCell(rows[0].geometry, parse).value;
      var rest := LoadRowwise(rows[1..], parse);
      if g.kind == LineString then [ToRecord(rows[0], g)] + rest else rest
  }

  lemma {:induction false} PairedRowwise(rows: seq<RawRow>, gs: seq<Geometry>, parse: string -> Option<Geometry>)
    requires |rows| == |gs|
    requires forall i :: 0 <= i < |rows| ==> ParseCell(rows[i].geometry, parse) == Some(gs[i])
    ensures ToRecords(Filter(Pair(rows, gs), IsLineParsed)) == LoadRowwise(rows, parse)
  {
    var keep := IsLineParsed;
    if |rows| > 0 {
      PairedRowwise(rows[1..], gs[1..], parse);
      var ps := Pair(rows, gs);
      assert ps[1..] == Pair(rows[1..], gs[1..]);
      assert ps[0] == ParsedRow(rows[0], gs[0]);
      if keep(ps[0]) {
        assert Filter(ps, keep) == [ps[0]] + Filter(ps[1..], keep);
        ToRecordsCons(ps[0], Filter(ps[1..], keep));
      } else {
        assert Filter(ps, keep) == Filter(ps[1..], keep);
      }
    }
  }

  /** A successful load holds exactly the LineString rows of the upload, in
      file order, each normalised by `ToRecord`. */
  lemma LoadDataIsRowwise(t: Table, parse: string -> Option<Geometry>)
    requires LoadData(t, parse).Loaded?
    ensures AllParse(t.rows, parse)
    ensures LoadData(t, parse).records == LoadRowwise(t.rows, parse)
  {
    var gs := ParseColumn(t.rows, parse).value;
    PairedRowwise(t.rows, gs, parse);
    assert LoadData(t, parse) == LoadLines(t.columns, t.rows, gs, parse);
  }

  /** One unparsable cell anywhere empties the whole load, even when every
      other row holds a valid LineString. */
  lemma OneBadCellEmptiesLoad(t: Table, parse: string -> Option<Geometry>, k: int)
    requires GeometryColumn in t.columns
    requires 0 <= k < |t.rows| && !Parses(t.rows[k], parse)
    ensures Frame(LoadData(t, parse)) == []
  {
  }
}
