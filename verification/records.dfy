/** The uploaded table and the road-segment records the dashboard works on. */
module Records {
  import opened Seqs
  import opened Geo

  /** Column names the script reads. */
  const GeometryColumn: string := "geometry"
  const RoadNumberColumn: string := "Road Number"
  const SpeedLimitColumn: string := "speed_limit"
  const KsiColumn: string := "KSI Count"

  /** One row of the uploaded CSV after reading; `None` is a missing cell
      (pandas NaN). A cell of a column the table does not have is ignored. */
  datatype RawRow = RawRow(
    geometry: Option<string>,
    roadNumber: Option<string>,
    speedLimit: Option<int>,
    ksiCount: Option<int>)

  /** The uploaded table: the header's column names and the rows in file order. */
  datatype Table = Table(columns: set<string>, rows: seq<RawRow>)

  /** A road segment after loading: geometry, trimmed road number, speed
      limit and killed-or-seriously-injured count. */
  datatype Record = Record(geometry: Geometry, roadNumber: string, speedLimit: int, ksiCount: int)

  /** `b` is `a` with (at most) its geometry replaced. */
  predicate SameAttributes(a: Record, b: Record) {
    a.roadNumber == b.roadNumber && a.speedLimit == b.speedLimit && a.ksiCount == b.ksiCount
  }
}
