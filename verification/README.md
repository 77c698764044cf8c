# Road KSI map of Essex: the record pipeline

`app_irap.py` is a Streamlit dashboard. The user uploads a CSV of road segments: a WKT geometry, a road number, a speed limit and a count of people killed or seriously injured (KSI). The dashboard draws the segments on a map, coloured by KSI count.

Under the widgets sits a pipeline of pure steps over road-segment records, and this project models it:

1. `load_data` turns the uploaded table into records: parse the WKT column, keep LineString rows, default and trim the attributes, and give an empty table on any failure.
2. The coordinate reference system is guessed from the combined bounds, with reprojection when the data does not look like longitude/latitude.
3. Records outside the fixed Essex box and records with a KSI count of 0 are dropped.
4. The road-number / speed-limit selection is applied, including the "select all" boxes.
5. The KSI bucket filter keeps 1–4, 5–7 and 8+, each switched by a checkbox.
6. `smooth_geometry` resamples each long LineString along an interpolating spline.
7. `get_ksi_color` picks each segment's colour.

The widget state is explicit parameters (`Pipeline.Controls`). The foreign library calls are function-typed parameters (`Pipeline.Libraries`):

- `wkt.loads` is `parse`, where `None` means it raises;
- shapely's `intersects` is `intersects`;
- `to_crs` is `project`;
- `splprep`/`splev` is `fit`, where `None` means the fit raises.

Modules follow the script's steps:

| module | file | content |
|---|---|---|
| `Seqs` | `seqs.dfy` | `Option`, the order-preserving `Filter` and its subsequence lemmas |
| `Strings` | `strings.dfy` | Python's `str.strip` |
| `Geo` | `geo.dfy` | coordinates, geometries, bounding boxes |
| `Records` | `records.dfy` | the raw table and the record type |
| `Loader` | `loader.dfy` | `load_data` |
| `Crs` | `crs.dfy` | the CRS guess |
| `Filters` | `filters.dfy` | the three filters |
| `Smoothing` | `smoothing.dfy` | smoothing |
| `Colours` | `colours.dfy` | the colour mapping |
| `Pipeline` | `pipeline.dfy` | the composition and a three-row example |

Where a plain reading of the dashboard and its code differ, the model follows the code:

- **One bad WKT cell empties the whole load.** `wkt.loads` is applied to the whole column (app_irap.py:62). One unparsable or missing cell raises out of that call, and the catch-all handler returns an empty table (app_irap.py:74-76). The bad row is not dropped on its own (`Loader.OneBadCellEmptiesLoad`).
- **All three bucket checkboxes off means no KSI filtering.** With no box ticked, the condition list is empty and the filter is skipped (app_irap.py:150-154). Every record passes, rather than none (`Filters.KsiBucketFilter`).
- **A missing attribute column also empties the load.** The attribute columns are "Road Number", "speed_limit" and "KSI Count". If one is absent, reading it raises `KeyError` (app_irap.py:70-72), and the handler returns an empty table (`Loader.LoadError.MissingColumn`).
- **Data with no vertex at all is reprojected.** With no vertex, the combined bounds are NaN, every strict comparison is false, and the reprojection branch is taken (`Crs.LooksGeographic`).

## Model

| member | source | states |
|---|---|---|
| Seqs.Filter | app_irap.py:102-103 | boolean-mask row selection: the result is an order-preserving subsequence of the input; every kept element satisfies the mask; every element satisfying it is kept; the length is unchanged exactly when every element satisfies it |
| Seqs.FilterMultiplicity | app_irap.py:102-103 | a kept element occurs exactly as often as in the input; a dropped one does not occur |
| Seqs.SelectionsCompose | app_irap.py:102-154 | two exact selections in a row are one exact selection by the conjunction: a value keeps its full multiplicity when both masks hold and vanishes otherwise |
| Seqs.FilterCommutes | app_irap.py:102-122 | two successive masks give the same rows in either order |
| Strings.Strip | app_irap.py:70 | `str.strip`: the result has no leading or trailing whitespace and is no longer than the input |
| Strings.StripKeepsBorderedSlice | app_irap.py:70 | the stripped string is a contiguous slice of the input, and only whitespace lies outside it |
| Strings.StripUnique | app_irap.py:70 | a slice with no whitespace at either end and only whitespace outside it is the result of `Strip`: strip removes exactly the surrounding whitespace |
| Strings.AllSpaceStripsToEmpty | app_irap.py:70 | an all-whitespace road number strips to the empty string |
| Strings.StripIdempotent | app_irap.py:70 | stripping twice equals stripping once |
| Geo.Bounds | app_irap.py:86-87 | the combined bounds of a set of vertices: absent exactly when there is no vertex; otherwise every vertex lies in the box and each of the four extremes is attained by some vertex |
| Loader.ParseColumn | app_irap.py:62 | the column conversion succeeds exactly when every cell parses, and then yields each cell's geometry in row order |
| Loader.ToRecord | app_irap.py:70-72 | a kept row's normalisation: a missing road number becomes "Unknown", a present one is stripped, and the road number is always stripped; a missing speed limit or KSI count becomes 0; the geometry is the parsed one |
| Loader.MissingAttribute | app_irap.py:70-72 | a column read at lines 70-72 is missing exactly when some attribute column is absent from the table |
| Loader.LoadLines | app_irap.py:63-72 | after parsing: no LineString row gives the "no LineString" failure; success holds exactly when there is a LineString row and all attribute columns exist; records are LineStrings with stripped road numbers, at least one and no more than there are rows |
| Loader.LoadData | app_irap.py:54-76 | the whole load: a missing geometry column, an unparsable cell or the absence of LineStrings each give an empty table; success holds exactly when none of these happens and the attribute columns exist; it yields 1 to n records, all LineStrings with stripped road numbers |
| Loader.LoadDataIsRowwise | app_irap.py:62-72 | a successful load is exactly the LineString rows of the upload, in file order, each normalised by `ToRecord` (checked against a row-by-row reference definition) |
| Loader.OneBadCellEmptiesLoad | app_irap.py:62-76 | one unparsable geometry cell anywhere leaves the script with an empty table |
| Crs.AllCoords | app_irap.py:86-87 | the combined vertex list holds exactly the vertices of all records |
| Crs.LooksGeographic | app_irap.py:86-89 | the four strict tests on the combined bounds (false when there is no vertex, the NaN case) hold exactly when there is a vertex and every vertex lies strictly within ±180 by ±90 |
| Crs.BoundsTestIff | app_irap.py:89 | on attained bounds, the four strict comparisons hold exactly when every vertex is strictly inside the ranges |
| Crs.Reproject | app_irap.py:93 | reprojection transforms each vertex and keeps the geometry type and vertex count |
| Crs.NormaliseCrs | app_irap.py:85-93 | data that looks geographic is kept unchanged; otherwise every vertex is reprojected; records, their order and every attribute are kept |
| Crs.NormaliseCrsKeepsLines | app_irap.py:90-93 | normalisation keeps every geometry type, so a table of LineStrings stays one |
| Crs.NormaliseCrsIdempotent | app_irap.py:89-93 | when the input or the output looks geographic, a second normalisation changes nothing |
| Crs.GeographicKeptInRange | app_irap.py:89-90 | data classified as geographic keeps every vertex strictly within the longitude/latitude ranges |
| Filters.RegionAndKsiFilter | app_irap.py:98-103 | the kept records are an order-preserving, unaltered subsequence; each intersects the fixed box and has KSI ≠ 0; every such record is kept with all its duplicates (exact multiplicity), every other record is dropped |
| Filters.Selection | app_irap.py:109-120 | with "select all" ticked the selection is exactly the set of values present in the column, that is every option offered; otherwise it is the user's choice |
| Filters.RoadSpeedFilter | app_irap.py:122 | a record is kept, with all its duplicates, exactly when its road number and its speed limit are both selected; order and contents are preserved |
| Filters.SelectAllKeepsEverything | app_irap.py:109-122 | with both "select all" boxes ticked the selection drops no record, whatever the multiselects hold |
| Filters.EmptySelectionKeepsNothing | app_irap.py:122 | an empty road or speed selection gives an empty table |
| Filters.Conditions | app_irap.py:142-148 | the condition list holds exactly the enabled buckets |
| Filters.CombinedIsSomeCondition | app_irap.py:150-153 | OR-ing the conditions holds exactly when some listed bucket holds the count |
| Filters.KsiBucketFilter | app_irap.py:141-154 | with no bucket enabled the table is unchanged; otherwise a record is kept, with all its duplicates, exactly when its KSI lies in an enabled bucket, in order and unaltered |
| Filters.BucketsPartitionPositive | app_irap.py:143-148 | the buckets [1,4], [5,7] and [8,∞) are disjoint, cover every positive count and hold no count ≤ 0 |
| Filters.AllBucketsKeepPositive | app_irap.py:137-154 | with all three boxes ticked, the bucket filter keeps exactly the records with KSI ≥ 1 |
| Filters.RegionAndSelectionCommute | app_irap.py:102-122 | for fixed selections, the region/zero-KSI filter and the road/speed filter commute |
| Filters.BucketsAndSelectionCommute | app_irap.py:122-154 | the bucket filter and the road/speed filter commute |
| Smoothing.Linspace | app_irap.py:167 | `linspace(0, 1, n)`: n parameters in [0,1], starting at 0, ending at 1 when n ≥ 2, strictly increasing |
| Smoothing.SmoothGeometry | app_irap.py:157-173 | a non-LineString or a line of at most two vertices is returned unchanged; so is any geometry when the fit raises, the count is negative or the count is 1; otherwise the result is a LineString of exactly `num_points` vertices, the fitted curve at the `linspace` parameters |
| Smoothing.SmoothingKeepsEndpoints | app_irap.py:166-169 | when the fitted curve interpolates the end vertices, smoothing keeps both ends of the road |
| Smoothing.SmoothAll | app_irap.py:175-180 | one output record per input record, in order, with every attribute kept; each geometry is `SmoothGeometry` of the original; so a geometry is either unchanged or has `num_points` vertices, unsmoothable or unfittable geometries are unchanged, and every smoothable line whose fit succeeds (with a count other than 1 and not negative) is resampled to exactly `num_points` vertices |
| Colours.KsiColour | app_irap.py:183-190 | yellow exactly for the 1–4 bucket, orange exactly for 5–7, red for 8+ and also for 0 and negative counts |
| Pipeline.SelectRecords | app_irap.py:97-154 | steps 3-5 together: an order-preserving subsequence whose every record meets the box, has KSI ≠ 0, has its road number and speed limit in the selections (which "select all" builds from the records left after the region filter) and is kept by the bucket step; every record passing all of these is kept with all its duplicates, and every other record is dropped |
| Pipeline.SelectRecordsPass | app_irap.py:102-154 | every record left by the three steps passes all three |
| Pipeline.SelectRecordsMultiplicity | app_irap.py:102-154 | the three steps keep a record with its full multiplicity exactly when it passes all three, and drop it otherwise |
| Pipeline.SelectedLines | app_irap.py:102-154 | selecting from LineStrings leaves LineStrings with KSI ≠ 0, no more of them than there were |
| Pipeline.Draw | app_irap.py:85-180 | steps 2-6 on a loaded table of LineStrings: no more records than were loaded, each a LineString with KSI ≠ 0 |
| Pipeline.Process | app_irap.py:54-180 | a failed load draws nothing; no more drawn records than uploaded rows; every drawn record is a LineString with KSI ≠ 0 |
| Pipeline.Render | app_irap.py:195-199 | one segment per record, coloured by `get_ksi_color` of its KSI count |
| Pipeline.Run | app_irap.py:78-210 | nothing is drawn when the load fails or the geometry column is missing; no more segments than rows; every segment has KSI ≠ 0 |
| Pipeline.ScenarioLoads | app_irap.py:54-76 | a three-row upload (two LineStrings, one Point) loads as the two LineString records in order |
| Pipeline.ThreeRowScenario | app_irap.py:54-199 | with the default controls, that upload draws exactly one segment: road "A12", KSI 3, yellow, 500 vertices |

## Left out

- CSV reading (`pd.read_csv`) is out: the upload is given as a `Records.Table` of optional cells. A file that fails to read is not modelled.
- WKT parsing, shapely intersection, the EPSG:32631 → EPSG:4326 transform and the scipy spline fit are parameters. They are foreign numerical code.
- Floating-point behaviour is out: coordinates are exact reals, and NaN appears only as the "no vertex" case of the bounds test.
- pandas dtype coercion (`astype(int)` on float or string cells) is out: speed limit and KSI cells are already integers or missing.
- `astype(str)` on road numbers is out: cells are already strings.
- Whitespace is the code-point set of Python's `str.isspace`. Unicode normalisation and case are out.
- Streamlit widgets, the CSS, error and warning messages, and `st.stop()` are out. Controls are parameters; a stop is an empty result.
- The multiselect default of the first five values is out: the chosen sets are parameters.
- The sorting of the multiselect options is out: only their sets matter to the filter.
- The folium map, tiles, tooltips and the box centroid are out; they are presentation only.
- The `set_crs` labels are out: the model tracks coordinates, not CRS metadata.
- Smoothing.Linspace: states range, end points and strict increase of the parameters, not their exact even spacing i/(n-1).
- Smoothing.SmoothGeometry: the values of the resampled vertices are whatever the `fit` parameter's curve gives; no property of the spline itself is stated.
- Pipeline.Draw: states only the overall bounds of steps 2-6; each step's content is stated by that step's members.
- Pipeline.Process: states the composition's overall bounds; the step-by-step content is stated by the members of each step, and `Pipeline.ThreeRowScenario` shows one full run.
- Pipeline.Run: as `Pipeline.Process`, plus the colouring stated by `Pipeline.Render`.
