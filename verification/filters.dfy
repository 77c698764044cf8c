/** The row filters of the dashboard: the fixed region with the zero-KSI
    exclusion, the road-number / speed-limit selection, and the KSI buckets.

    Widget state becomes explicit parameters: the "select all" boxes and the
    multiselect choices, and the three bucket checkboxes. The polyline/box
    intersection test of shapely is the parameter `intersects`. */
module Filters {
  import opened Seqs
  import opened Geo
  import opened Records

  // ---------------------------------------------------------------------
  // Region of interest and zero-KSI exclusion (lines 98-103)
  // ---------------------------------------------------------------------

  predicate InRegion(x: Record, intersects: (Geometry, BBox) -> bool) {
    intersects(x.geometry, RegionOfInterest)
  }

  /** Keep the records whose geometry meets the region of interest, then drop
      the records with a KSI count of 0. Records are neither reordered nor
      altered, and a kept record keeps all its duplicates. */
  function RegionAndKsiFilter(rs: seq<Record>, intersects: (Geometry, BBox) -> bool): (r: seq<Record>)
    ensures IsSubsequence(r, rs)
    ensures forall i :: 0 <= i < |r| ==> InRegion(r[i], intersects) && r[i].ksiCount != 0
    ensures forall x :: x in rs && InRegion(x, intersects) && x.ksiCount != 0 ==> x in r
    ensures forall x :: x in rs ==>
              multiset(r)[x] == if InRegion(x, intersects) && x.ksiCount != 0 then multiset(rs)[x] else 0
  {
    var p := (x: Record) => InRegion(x, intersects);
    var q := (x: Record) => x.ksiCount != 0;
    var inRegion := Filter(rs, p);
    var r := Filter(inRegion, q);
    SubsequenceTransitive(r, inRegion, rs);
    FilterMultiplicity(rs, p);
    FilterMultiplicity(inRegion, q);
    SelectionsCompose(rs, inRegion, r, p, q);
    r
  }

  // ---------------------------------------------------------------------
  // Road number and speed limit selection (lines 109-122)
  // ---------------------------------------------------------------------

  /** The "Road Number" column, whose distinct values the road multiselect
      offers. */
  function RoadNumbers(rs: seq<Record>): seq<string> {
    seq(|rs|, i requires 0 <= i < |rs| => rs[i].roadNumber)
  }

  /** The "speed_limit" column, whose distinct values the speed multiselect
      offers. */
  function SpeedLimits(rs: seq<Record>): seq<int> {
    seq(|rs|, i requires 0 <= i < |rs| => rs[i].speedLimit)
  }

  /** The effective selection over a column: with "select all" ticked, the
      distinct values present in the column (every option offered);
      otherwise what the user chose. */
  function Selection<T>(column: seq<T>, selectAll: bool, chosen: set<T>): (s: set<T>)
    ensures selectAll ==> forall i :: 0 <= i < |column| ==> column[i] in s
    ensures selectAll ==> forall v :: v in s ==> v in column
    ensures !selectAll ==> s == chosen
  {
    if selectAll then set v | v in column else chosen
  }

  predicate Selected(x: Record, roads: set<string>, speeds: set<int>) {
    x.roadNumber in roads && x.speedLimit in speeds
  }

  /** `isin(selected_roads) & isin(selected_speed)`: a record stays iff both
      its road number and its speed limit are selected. */
  function RoadSpeedFilter(rs: seq<Record>, roads: set<string>, speeds: set<int>): (r: seq<Record>)
    ensures IsSubsequence(r, rs)
    ensures forall i :: 0 <= i < |r| ==> r[i].roadNumber in roads && r[i].speedLimit in speeds
    ensures forall x :: x in rs && x.roadNumber in roads && x.speedLimit in speeds ==> x in r
    ensures forall x :: x in rs ==>
              multiset(r)[x] == if x.roadNumber in roads && x.speedLimit in speeds then multiset(rs)[x] else 0
  {
    FilterMultiplicity(rs, x => Selected(x, roads, speeds));
    Filter(rs, x => Selected(x, roads, speeds))
  }

  /** With both "select all" boxes ticked nothing is dropped, whatever the
      multiselects hold. */
  lemma SelectAllKeepsEverything(rs: seq<Record>, chosenRoads: set<string>, chosenSpeeds: set<int>)
    ensures RoadSpeedFilter(rs, Selection(RoadNumbers(rs), true, chosenRoads),
                            Selection(SpeedLimits(rs), true, chosenSpeeds)) == rs
  {
    var roads := Selection(RoadNumbers(rs), true, chosenRoads);
    var speeds := Selection(SpeedLimits(rs), true, chosenSpeeds);
    assert forall i :: 0 <= i < |rs| ==> Selected(rs[i], roads, speeds) by {
      forall i | 0 <= i < |rs| ensures Selected(rs[i], roads, speeds) {
        assert RoadNumbers(rs)[i] == rs[i].roadNumber;
        assert SpeedLimits(rs)[i] == rs[i].speedLimit;
      }
    }
    FilterKeepsAll(rs, x => Selected(x, roads, speeds));
  }

  /** An empty road or speed selection empties the table (no error). */
  lemma EmptySelectionKeepsNothing(rs: seq<Record>, roads: set<string>, speeds: set<int>)
    requires roads == {} || speeds == {}
    ensures RoadSpeedFilter(rs, roads, speeds) == []
  {
  }

  // ---------------------------------------------------------------------
  // KSI buckets (lines 137-154)
  // ---------------------------------------------------------------------

  /** The three legend buckets "1–4", "5–7" and "8+". */
  datatype Bucket = Ksi1To4 | Ksi5To7 | Ksi8Plus

  const LowMin: int := 1
  const LowMax: int := 4
  const MidMin: int := 5
  const MidMax: int := 7
  const HighMin: int := 8

  /** The KSI range of each bucket: [1,4], [5,7] and [8,∞). */
  predicate InBucket(b: Bucket, ksi: int) {
    match b
    case Ksi1To4 => LowMin <= ksi <= LowMax
    case Ksi5To7 => MidMin <= ksi <= MidMax
    case Ksi8Plus => HighMin <= ksi
  }

  /** The state of the three "Include KSI" checkboxes. */
  datatype BucketSwitches = BucketSwitches(include1To4: bool, include5To7: bool, include8Plus: bool)

  predicate Enabled(sw: BucketSwitches, b: Bucket) {
    match b
    case Ksi1To4 => sw.include1To4
    case Ksi5To7 => sw.include5To7
    case Ksi8Plus => sw.include8Plus
  }

  /** The reference meaning of the bucket filter: some enabled bucket holds `ksi`. */
  predicate InEnabledBucket(sw: BucketSwitches, ksi: int) {
    exists b :: Enabled(sw, b) && InBucket(b, ksi)
  }

  /** `ksi_conditions`: the enabled buckets. */
  function Conditions(sw: BucketSwitches): (cs: seq<Bucket>)
    ensures forall b :: b in cs <==> Enabled(sw, b)
  {
    (if sw.include1To4 then [Ksi1To4] else [])
    + (if sw.include5To7 then [Ksi5To7] else [])
    + (if sw.include8Plus then [Ksi8Plus] else [])
  }

  /** `combined_ksi`: the first condition OR-ed with each remaining one. */
  predicate Combined(cs: seq<Bucket>, ksi: int)
    requires |cs| > 0
  {
    InBucket(cs[0], ksi) || (|cs| > 1 && Combined(cs[1..], ksi))
  }

  lemma {:induction false} CombinedIsSomeCondition(cs: seq<Bucket>, ksi: int)
    requires |cs| > 0
    ensures Combined(cs, ksi) <==> exists b :: b in cs && InBucket(b, ksi)
  {
    if |cs| > 1 {
      CombinedIsSomeCondition(cs[1..], ksi);
      assert forall b :: b in cs <==> b == cs[0] || b in cs[1..];
    }
  }

  /** Whether the bucket step keeps a count: always when no bucket is
      enabled, otherwise when an enabled bucket holds it. */
  predicate KsiKept(sw: BucketSwitches, ksi: int) {
    |Conditions(sw)| == 0 || InEnabledBucket(sw, ksi)
  }

  /** Lines 141-154. When the table is empty or no checkbox is ticked the
      table is left as it is (all three boxes off means no KSI filtering);
      otherwise a record stays iff its KSI count lies in an enabled bucket. */
  function KsiBucketFilter(rs: seq<Record>, sw: BucketSwitches): (r: seq<Record>)
    ensures |Conditions(sw)| == 0 ==> r == rs
    ensures IsSubsequence(r, rs)
    ensures |Conditions(sw)| > 0 ==> forall i :: 0 <= i < |r| ==> InEnabledBucket(sw, r[i].ksiCount)
    ensures |Conditions(sw)| > 0 ==> forall x :: x in rs && InEnabledBucket(sw, x.ksiCount) ==> x in r
    ensures forall x :: x in rs ==> multiset(r)[x] == if KsiKept(sw, x.ksiCount) then multiset(rs)[x] else 0
  {
    var cs := Conditions(sw);
    if |rs| == 0 || |cs| == 0 then
      SubsequenceReflexive(rs);
      rs
    else
      assert forall k :: Combined(cs, k) <==> InEnabledBucket(sw, k) by {
        forall k ensures Combined(cs, k) <==> InEnabledBucket(sw, k) {
          CombinedIsSomeCondition(cs, k);
        }
      }
      FilterMultiplicity(rs, (x: Record) => Combined(cs, x.ksiCount));
      Filter(rs, (x: Record) => Combined(cs, x.ksiCount))
  }

  /** The buckets split the positive counts: every KSI of at least 1 lies in
      exactly one bucket, and no bucket holds 0 or a negative count. */
  lemma BucketsPartitionPositive(ksi: int)
    ensures ksi >= 1 ==> exists b :: InBucket(b, ksi)
    ensures forall b, c :: InBucket(b, ksi) && InBucket(c, ksi) ==> b == c
    ensures ksi <= 0 ==> forall b :: !InBucket(b, ksi)
  {
    if ksi >= 1 {
      if ksi <= LowMax {
        assert InBucket(Ksi1To4, ksi);
      } else if ksi <= MidMax {
        assert InBucket(Ksi5To7, ksi);
      } else {
        assert InBucket(Ksi8Plus, ksi);
      }
    }
  }

  /** With every bucket enabled the filter keeps exactly the records with a
      KSI count of at least 1. */
  lemma AllBucketsKeepPositive(rs: seq<Record>)
    ensures KsiBucketFilter(rs, BucketSwitches(true, true, true)) == Filter(rs, (x: Record) => x.ksiCount >= 1)
  {
    var sw := BucketSwitches(true, true, true);
    var cs := Conditions(sw);
    if |rs| == 0 {
    } else {
      forall i | 0 <= i < |rs| ensures Combined(cs, rs[i].ksiCount) == (rs[i].ksiCount >= 1) {
        CombinedIsSomeCondition(cs, rs[i].ksiCount);
        BucketsPartitionPositive(rs[i].ksiCount);
        assert cs == [Ksi1To4, Ksi5To7, Ksi8Plus];
      }
      FilterCongruent(rs, (x: Record) => Combined(cs, x.ksiCount), (x: Record) => x.ksiCount >= 1);
    }
  }

  // ---------------------------------------------------------------------
  // Order of the filters
  // ---------------------------------------------------------------------

  /** For fixed selections the region/zero-KSI filter and the road/speed
      filter may be applied in either order. */
  lemma RegionAndSelectionCommute(rs: seq<Record>, intersects: (Geometry, BBox) -> bool,
                                  roads: set<string>, speeds: set<int>)
    ensures RoadSpeedFilter(RegionAndKsiFilter(rs, intersects), roads, speeds)
            == RegionAndKsiFilter(RoadSpeedFilter(rs, roads, speeds), intersects)
  {
    var p := (x: Record) => InRegion(x, intersects);
    var q := (x: Record) => x.ksiCount != 0;
    var s := (x: Record) => Selected(x, roads, speeds);
    FilterCommutes(Filter(rs, p), q, s);
    FilterCommutes(rs, p, s);
  }

  /** The bucket filter and the road/speed filter may be applied in either
      order. */
  lemma BucketsAndSelectionCommute(rs: seq<Record>, sw: BucketSwitches,
                                   roads: set<string>, speeds: set<int>)
    ensures RoadSpeedFilter(KsiBucketFilter(rs, sw), roads, speeds)
            == KsiBucketFilter(RoadSpeedFilter(rs, roads, speeds), sw)
  {
    var cs := Conditions(sw);
    var s := (x: Record) => Selected(x, roads, speeds);
    if |cs| > 0 && |rs| > 0 {
      var b := (x: Record) => Combined(cs, x.ksiCount);
      FilterCommutes(rs, b, s);
      if |RoadSpeedFilter(rs, roads, speeds)| == 0 {
        FilterKeepsNone(Filter(rs, b), s);
        assert forall i :: 0 <= i < |Filter(rs, b)| ==> !s(Filter(rs, b)[i]) by {
          forall i | 0 <= i < |Filter(rs, b)| ensures !s(Filter(rs, b)[i]) {
            assert Filter(rs, b)[i] in rs;
          }
        }
      }
    }
  }
}
