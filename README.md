# K-function spatial statistics of luna-pathology, in Dafny

This project models the spatial-statistics core of luna-pathology.

**The K-function family** (`luna_pathology/spatial/stats.py`). Each phenotype-1 cell is a reference point. For it, the library aggregates over the phenotype-2 cells that lie within a radius r. There are three aggregates:
- the count of those cells (`CKfunction`);
- the sum of their intensities (`IKfunction`);
- the sum of their intensities, each divided by the cubed distance (`IDKfunction`).

The radius is either a single number or a list of radii. `ret` then either keeps the per-point vectors (list form) or takes their mean (mean form), and collapses a single row to a vector and a single mean to a number.

**The per-region driver** (`luna_pathology/spatial/runK.py`, `runKfunction`, lines 9-79). It:
- checks that the detection and phenotype listings agree;
- parses every field name `patient_region_…_…_fov`;
- builds a patient → region → record-list table;
- appends one record per field: the four moments of the field's intensity K vector at radius 60, and N, its number of phenotype-1 cells;
- replaces every region's list by the N-weighted mean of its moment vectors.

**The per-slice driver** (`luna_pathology/spatial/transforms.py`, `runKfunction`). For every field it:
- reads the slice index;
- selects the two phenotypes and warns when a selection is empty;
- runs the K-function dispatcher;
- merges the per-kind result vectors into an accumulator.

After the last field it reduces every kind to four named moment columns of a row indexed by the slice index.

Modules:
- `Results`: Option and Result.
- `Moments`: numpy's sum, mean and population variance, over `real`.
- `Stats`: stats.py.
- `Cells`: the phenotype selection both drivers share.
- `RunK`: runK.py.
- `Transforms`: transforms.py.

How each source file is modelled:
- stats.py is pure, so it becomes datatypes, functions and lemmas.
- Both drivers become methods with loops:
  - their dictionaries are `map` values that the loops rebuild;
  - each method is proved against specification functions (`FieldRecords`, `Filter`, `WeightedMean`, `FirstWins`, `AllWarnings`).

Inputs that are not code the model can see become parameters:
- the cell tables, given already read and joined as sequences of `Cell`;
- `scipy.stats.skew` and `scipy.stats.kurtosis`, as functions of type `seq<real> -> real`;
- the `Kfunction` dispatcher that transforms.py calls, as a function from a field's coordinates and intensities to a map from statistic kind to vector. It is defined in none of the modelled files.

What the code does, and therefore what the model does:
- There is no edge correction, no quality-control filtering and no duplicate-radius detection.
- transforms.py does not pool the fields' vectors. It keeps the first vector per kind (see Findings).
- An empty vector is not skipped. It is replaced by `[0]` and reported with mean 0 and variance 0.
- runK.py aggregates already-reduced moments by an N-weighted mean. `RunK.AggregatedMeanIsPooledMean` proves this exact for the mean component only.

## Model

| member | source | states |
|---|---|---|
| Stats.Ret | luna_pathology/spatial/stats.py:5-10 | Succeeds unless the mean form is asked of an empty radius list (numpy's AxisError). The list form holds exactly the table's rows, and is a bare vector iff there is one row. The mean form holds the mean of each row, and is a bare number iff there is one row. |
| Stats.KFunction | luna_pathology/spatial/stats.py:23-29 | The shared body: succeeds iff the list form is asked or there is at least one radius. There is one row (list form) or one mean (mean form) per radius. Stats.ListFormRows and Stats.MeanFormEntries give each entry as the per-point aggregate. |
| Stats.CKFunction | luna_pathology/spatial/stats.py:14-29 | Succeeds iff the list form is asked or there is a radius. In list form, row m has one entry per phenotype-1 cell, equal to the number of phenotype-2 cells within the m-th radius of it. |
| Stats.IKFunction | luna_pathology/spatial/stats.py:33-43 | Succeeds iff the list form is asked or there is a radius. With all intensities 1 it returns exactly what `CKfunction` returns, in both forms. |
| Stats.IDKFunction | luna_pathology/spatial/stats.py:47-57 | Succeeds iff the list form is asked or there is a radius. In list form, entry i of row m is the intensity aggregate at the m-th radius with each intensity I[j] divided by d(i, j)³. |
| Stats.InverseCube | luna_pathology/spatial/stats.py:52 | `1/d**3` for a positive distance is positive, and multiplied by d³ gives 1. |
| Stats.DistanceTestIsWithin | luna_pathology/spatial/stats.py:23-24 | Take a distance d ≥ 0 whose square is the squared Euclidean distance. Then `d <= r` holds exactly when the model's `Within` test holds, for any r. |
| Stats.WithinMonotone | luna_pathology/spatial/stats.py:24 | A cell within r1 of a point is within every larger r2. |
| Stats.CountIsNeighbourCount | luna_pathology/spatial/stats.py:23-24 | A reference point's count is the number of phenotype-2 points at distance ≤ r. |
| Stats.CountBounded | luna_pathology/spatial/stats.py:24 | A reference point's count lies in [0, \|p2\|]. |
| Stats.CountMonotone | luna_pathology/spatial/stats.py:24 | r1 ≤ r2 implies count(i, r1) ≤ count(i, r2) for every reference point. |
| Stats.IntensityOfOnesIsCount | luna_pathology/spatial/stats.py:24-38 | With all intensities 1, the per-point intensity aggregate equals the count. |
| Stats.IntensityDistanceIsReweightedIntensity | luna_pathology/spatial/stats.py:38-52 | The distance-weighted aggregate equals the intensity aggregate with weights I[j]/d(i,j)³. It covers the same neighbourhood, reweighted pair by pair. |
| Stats.ScalarRadiusIsSingletonList | luna_pathology/spatial/stats.py:25-28 | A bare radius gives the same result as the one-element list holding it, in both forms. |
| Stats.ListFormRows | luna_pathology/spatial/stats.py:24-29 | The list form always succeeds, with one row per radius in the order given. Row m, entry i is reference point i's aggregate at the m-th radius. |
| Stats.MeanFormEntries | luna_pathology/spatial/stats.py:8-10 | The mean form succeeds iff there is at least one radius. Entry m is the mean over the reference points of the aggregate at the m-th radius. |
| Stats.ShapePolicy | tests/luna_pathology/spatial/test_stats.py:23-26 | Shapes are (\|p1\|,) and () for a bare radius. For a list of k > 1 radii they are (k, \|p1\|) and (k,). |
| Stats.EmptyTargetsGiveZeros | luna_pathology/spatial/stats.py:23-29 | With no phenotype-2 cells, every per-point aggregate is 0, for every kind and radius. |
| Stats.OnesTableIsCountTable | luna_pathology/spatial/stats.py:24-38 | With an all-ones intensity vector, the intensity table equals the count table for every radius argument. |
| Stats.CountMeansBounded | luna_pathology/spatial/stats.py:8-29 | Every mean-form count lies in [0, \|p2\|]. |
| Stats.CountRowsNondecreasing | luna_pathology/spatial/stats.py:24-26 | For radii listed in increasing order, each reference point's counts never decrease from row to row. |
| Moments.MeanWithin | luna_pathology/spatial/transforms.py:65 | `np.mean` lies between any lower and upper bound of the entries. |
| Moments.VarianceNonNegative | luna_pathology/spatial/runK.py:64 | `np.var` (dividing by n) is never negative. |
| Moments.VarianceOfConstant | luna_pathology/spatial/transforms.py:66 | A constant vector has variance 0. |
| Moments.MeanOfConcatenation | luna_pathology/spatial/runK.py:76-78 | The mean of two pooled vectors is the length-weighted mean of their means. |
| Cells.Select | luna_pathology/spatial/runK.py:49-50 | `df[df[col] == val]` keeps only matching rows of the table and never grows it. |
| Cells.Positions | luna_pathology/spatial/transforms.py:38-39 | One coordinate pair per selected row. Cells.SelectionAligned shows the pairs follow the table rows. |
| Cells.Intensities | luna_pathology/spatial/transforms.py:40 | One intensity per selected row. Cells.SelectionAligned shows it is aligned with the coordinates. |
| Cells.SelectionAligned | luna_pathology/spatial/transforms.py:36-40 | The selection is exactly the matching rows, in table order. Coordinates and intensities built from it have equal length, and entry k of each comes from the same table row. |
| RunK.Split | luna_pathology/spatial/runK.py:27 | `str.split` always gives at least one segment, and no segment holds the separator. |
| RunK.JoinSplit | luna_pathology/spatial/runK.py:27 | Joining the segments of a split gives back the name. |
| RunK.SplitJoin | luna_pathology/spatial/runK.py:27 | Splitting a join of separator-free segments gives back the segments. |
| RunK.FieldNameParts | luna_pathology/spatial/runK.py:56-59 | A name made of five or more `_`-free parts parses to patient = part 0, region = part 1, fov = part 4. |
| RunK.CheckListings | luna_pathology/spatial/runK.py:14-18 | The listing assertions pass iff the two listings are equal. |
| RunK.GroupSize | luna_pathology/spatial/runK.py:67 | A group holds one record per field with that key. |
| RunK.DistinctIsExact | luna_pathology/spatial/runK.py:22-30 | The distinct keys are exactly the keys of the listing, each once. |
| RunK.OccurrencesPartition | luna_pathology/spatial/runK.py:36-67 | Summed over the distinct keys, the group sizes add up to the number of fields. |
| RunK.BuildTable | luna_pathology/spatial/runK.py:22-30 | Fails with the first name lacking a region segment. Otherwise the table has exactly the listing's patients and (patient, region) pairs, each with an empty list. |
| RunK.AppendStep | luna_pathology/spatial/runK.py:67 | Appending field i's record to its own group takes the table for the first i fields to the table for the first i + 1. |
| RunK.FieldK | luna_pathology/spatial/runK.py:49-62 | One entry per phenotype-1 cell: the phenotype-2 intensity within 60 units of it. |
| RunK.FieldRecord | luna_pathology/spatial/runK.py:62-66 | A four-moment record whose N is the number of phenotype-1 cells (> 0), with a non-negative variance. |
| RunK.FillTable | luna_pathology/spatial/runK.py:36-67 | Fails with the first name lacking a fov segment. Otherwise each group holds the records of the fields with its key, in listing order. |
| RunK.TotalRecordsIsFieldCount | luna_pathology/spatial/runK.py:36-67 | Over all groups, the filled table holds exactly one record per field. |
| RunK.WeightedMoments | luna_pathology/spatial/runK.py:73-78 | The inner loop computes Σ(Moment·N)/ΣN, component by component. |
| RunK.ReduceRegions | luna_pathology/spatial/runK.py:72-79 | Every region of a patient is overwritten by its weighted moments, and the regions are kept. |
| RunK.AggregateGroups | luna_pathology/spatial/runK.py:71-79 | Every (patient, region) entry is overwritten by its weighted moments, and all keys are kept. |
| RunK.GroupsWeighable | luna_pathology/spatial/runK.py:73-78 | Every group of a filled table is non-empty with positive total weight, so the division at line 78 is defined. |
| RunK.EqualWeightsGivePlainAverage | luna_pathology/spatial/runK.py:71-78 | When every field has the same N, each aggregated component is the plain average of that component. |
| RunK.WeightedMeanWithin | luna_pathology/spatial/runK.py:73-78 | Each aggregated component lies between that component's bounds over the group's fields. |
| RunK.AggregatedMeanIsPooledMean | luna_pathology/spatial/runK.py:62-78 | The aggregated mean equals the mean of all the group's K vectors pooled together. |
| RunK.RunK | luna_pathology/spatial/runK.py:9-79 | Fails iff the listings differ, or a name lacks a region or fov segment; the error names the first bad name. On success, each (patient, region) of the listing maps to the N-weighted mean moments of its fields' records. |
| Transforms.IndexOf | luna_pathology/spatial/transforms.py:33 | The slice index is read from the first row only: it is that row's value in the index column, or `None` when the row has none. |
| Transforms.ProcessField | luna_pathology/spatial/transforms.py:33-50 | One field's index, warnings and dispatcher result are those of IndexOf, FieldWarnings and the dispatcher applied to the two selections. |
| Transforms.FieldWarnings | luna_pathology/spatial/transforms.py:42-45 | A phenotype-1 (resp. phenotype-2) warning carrying the field's index is emitted iff that selection is empty. There are at most two warnings. |
| Transforms.MergeFirst | luna_pathology/spatial/transforms.py:52-56 | After one field, the kinds are the old ones plus the field's. An existing kind keeps its vector, because np.append's result is dropped. A new kind takes the field's vector. |
| Transforms.FirstWins | luna_pathology/spatial/transforms.py:52-56 | Every vector the accumulator holds is some field's vector of that very kind: nothing is invented or combined. |
| Transforms.FirstWinsKeys | luna_pathology/spatial/transforms.py:52-56 | The accumulator's kinds are the union of the kinds returned for all fields. |
| Transforms.FirstWinsValue | luna_pathology/spatial/transforms.py:53-56 | Each kind holds the vector of the first field that produced it. |
| Transforms.AppendResultDiscarded | luna_pathology/spatial/transforms.py:54 | Take two fields that both return "count". As written, the second field's vector is lost. Pooled, both are kept. |
| Transforms.Pooled | luna_pathology/spatial/transforms.py:54 | With the append assigned back, the pool's kinds are exactly the kinds some field returns. |
| Transforms.PooledIsConcat | luna_pathology/spatial/transforms.py:52-56 | With the append assigned back, each kind holds exactly the fields' vectors of that kind, concatenated in field order. A kind no field returns is absent. |
| Transforms.PooledKeepsEveryField | luna_pathology/spatial/transforms.py:54 | With the append assigned back, every value of every field's vector is in the pool for its kind. |
| Transforms.FirstWinsIsPooledWhenUnshared | luna_pathology/spatial/transforms.py:52-56 | When no two fields return the same kind, the as-written accumulator equals the pooled one. |
| Transforms.OutputNameParts | luna_pathology/spatial/transforms.py:65-68 | A column name starts with the phenotype/radius prefix, holds the kind after it and ends with the moment's suffix. |
| Transforms.OutputNamesDistinct | luna_pathology/spatial/transforms.py:63-69 | For fixed phenotypes, radius and intensity, distinct (kind, moment) pairs have distinct names. So the 4·\|kinds\| columns never overwrite each other. |
| Transforms.Guarded | luna_pathology/spatial/transforms.py:62 | The guarded vector is never empty, and equals the vector whenever that is non-empty. |
| Transforms.GuardedEmptyIsZero | luna_pathology/spatial/transforms.py:62-66 | An empty kind is reported with mean 0 and variance 0. |
| Transforms.KindEntries | luna_pathology/spatial/transforms.py:63-69 | One kind's update has exactly four keys, its four names, each holding that moment of the vector. |
| Transforms.Summarise | luna_pathology/spatial/transforms.py:58-70 | `data_out` has one entry per (kind, moment) pair and no other. Each holds that moment of the kind's guarded vector. |
| Transforms.AccumulateFields | luna_pathology/spatial/transforms.py:17-56 | Fails at the first empty table. Otherwise the accumulator is FirstWins of the fields' dispatcher results, the index is read from the last table, and the warnings are every field's, in order. |
| Transforms.RunSlice | luna_pathology/spatial/transforms.py:12-78 | No tables: fails (`index` unbound). Empty table: fails (`iloc[0]`). Otherwise it returns the last table's index and the named moments of the first vector per kind. |

## Left out

- File and table I/O are not modelled: `os.listdir`, `pd.read_csv`, `pd.merge`, `pd.read_parquet`, the column drops, printing, and the pandas DataFrame construction of the result. The drivers take the listings and the joined cell tables as inputs, and return the table and row they would print or hand back.
- The module-level script of runK.py (lines 99-116) and the final printing loop (lines 82-85) are not modelled. They hold hard-coded paths and console output only.
- `np.squeeze(list(cell_paths)).tolist()` is not modelled: the driver takes the list of tables directly. With a single path it would iterate over the characters of a string.
- Floating point is modelled as `real`: no rounding, no infinities, no NaN.
- Stats.IDKFunction: takes the distance matrix as an input tied to the points (each entry positive, its square the squared distance) instead of computing `cdist`'s square root, and requires positive distances. A zero distance makes the source's row sum NaN even outside the radius.
- Stats.KFunction: the mean form requires at least one phenotype-1 cell. numpy's mean of an empty row is NaN.
- Stats.Ret: the mean form requires every row to be non-empty, for the same reason (NaN means are not modelled).
- RunK.RunK: requires every field to have a phenotype-1 cell and to carry the intensity column on its phenotype-2 rows. Otherwise `np.mean` of an empty K vector is NaN, or the intensity is NaN, and that NaN spreads to the whole region's weighted sum.
- Transforms.RunSlice: requires the phenotype-2 rows to carry the intensity column; a missing index value is `None`.
- Cells.Matches: columns are stored per row, so a column absent from the whole table is treated as empty in every row. This affects RunK.RunK, Transforms.AccumulateFields and Transforms.RunSlice, which select nothing (and warn) where pandas raises KeyError. The missing cases are a phenotype column (transforms.py:36-37, runK.py:49-50), the intensity column (runK.py:53, raised even with no phenotype-2 rows) and the index column (transforms.py:33).
- `scipy.stats.skew` and `scipy.stats.kurtosis` are function parameters. Fractional powers are out of reach of `real` arithmetic, so nothing is proved about their values.
- The `Kfunction` dispatcher (transforms.py line 50) is a function parameter. It is defined in none of the modelled files, and the radius, `count` and `distance` arguments are fixed for a run. The radius enters the column names as the text it is formatted to.
- luna_pathology/spatial/example.py, luna_pathology/spatial/analysis.py, the tile-label and upload command-line tools, and the proxy-table generator are not modelled. They are dask/CLI/HTTP/file drivers around the core.
- The order in which dictionaries are iterated is not modelled. The loops pick any remaining key, and every result is stated for all orders.

## Findings

| source | as written | input that shows it | evidently intended | confidence | as-written member | corrected member |
|---|---|---|---|---|---|---|
| luna_pathology/spatial/transforms.py:54 | `np.append(agg_k_data[key], fov_k_data[key])` returns a new array that is never stored, so each kind keeps only the first field's vector | two fields whose dispatcher results are both `{"count": [1.0]}` and `{"count": [2.0]}`: the accumulator holds `[1.0]` | `agg_k_data[key] = np.append(...)`, pooling every field's vector before the moments are taken | high (not executed) | Transforms.AppendResultDiscarded | Transforms.PooledIsConcat |

The driver `Transforms.RunSlice` keeps the program's behaviour (`Transforms.MergeFirst`, `Transforms.FirstWins`). `Transforms.Pooled` (built from `Transforms.MergePooled`) is the corrected accumulator, and `Transforms.PooledIsConcat` gives its exact content. `Transforms.FirstWinsIsPooledWhenUnshared` shows that the two differ only when two fields return the same kind.
