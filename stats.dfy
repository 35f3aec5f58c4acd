/** The K-function family: for every phenotype-1 (reference) point, an aggregate
    over the phenotype-2 points within a radius, at one radius or at an ordered
    list of radii, returned in list form or collapsed to means. */
module Stats {
  import opened Results
  import opened Moments

  /** A cell centroid in micrometres. */
  datatype Point = Point(x: real, y: real)

  /** A radius argument: a bare number, or anything iterable (a list of radii). */
  datatype Radius = One(r: real) | Many(rs: seq<real>)

  /** The array `ret` hands back: a 0-d value, a 1-d vector or a 2-d matrix. */
  datatype Out = Scalar(s: real) | Vec(v: seq<real>) | Mat(m: seq<seq<real>>)

  /** numpy raises an AxisError when asked for the row means of the empty
      array that an empty radius list produces. */
  datatype ShapeError = EmptyRadiusList

  /** Which per-pair contribution is summed: 1 (count), the phenotype-2
      intensity, or that intensity over the cubed distance. */
  datatype Statistic =
    | Count
    | Intensity(weights: seq<real>)
    | IntensityDistance(weights: seq<real>, dists: seq<seq<real>>)

  function SqDist(a: Point, b: Point): real
  {
    (a.x - b.x) * (a.x - b.x) + (a.y - b.y) * (a.y - b.y)
  }

  /** `cdist(a, b) <= r`: the distance d = sqrt(SqDist(a, b)) is at least 0,
      so d <= r holds exactly when r >= 0 and SqDist(a, b) <= r * r. */
  predicate Within(a: Point, b: Point, r: real)
  {
    0.0 <= r && SqDist(a, b) <= r * r
  }

  /** `d` is the |p1| x |p2| matrix of Euclidean distances, and no pair of
      points coincides (a zero distance makes `1/dists**3` infinite and the
      row sum NaN, even for pairs outside the radius). */
  ghost predicate IsDistanceMatrix(d: seq<seq<real>>, p1: seq<Point>, p2: seq<Point>)
  {
    && |d| == |p1|
    && (forall i :: 0 <= i < |d| ==> |d[i]| == |p2|)
    && (forall i, j {:trigger d[i][j]} :: 0 <= i < |p1| && 0 <= j < |p2| ==>
          0.0 < d[i][j] && d[i][j] * d[i][j] == SqDist(p1[i], p2[j]))
  }

  /** The inputs a statistic needs: an intensity per phenotype-2 point, and
      for the distance-weighted kind, the distance matrix. */
  ghost predicate Admissible(k: Statistic, p1: seq<Point>, p2: seq<Point>)
  {
    match k
    case Count => true
    case Intensity(w) => |w| == |p2|
    case IntensityDistance(w, d) => |w| == |p2| && IsDistanceMatrix(d, p1, p2)
  }

  /** What the pair (p1[i], p2[j]) adds to reference point i's aggregate at radius r. */
  function Contribution(k: Statistic, p1: seq<Point>, p2: seq<Point>, i: nat, j: nat, r: real): real
    requires Admissible(k, p1, p2) && i < |p1| && j < |p2|
  {
    match k
    case Count => if Within(p1[i], p2[j], r) then 1.0 else 0.0
    case Intensity(w) => if Within(p1[i], p2[j], r) then w[j] else 0.0
    case IntensityDistance(w, d) =>
      if d[i][j] <= r then w[j] * InverseCube(d[i][j]) else 0.0
  }

  /** `1/d**3` for a positive distance. */
  function InverseCube(d: real): (c: real)
    requires d > 0.0
    ensures c > 0.0 && c * (d * d * d) == 1.0
  {
    assert d * d > 0.0;
    assert d * d * d > 0.0;
    1.0 / (d * d * d)
  }

  /** Reference point i's aggregate over the first n phenotype-2 points
      (one entry of the `np.sum(..., axis=1)` row). */
  function Aggregate(k: Statistic, p1: seq<Point>, p2: seq<Point>, i: nat, r: real, n: nat): real
    requires Admissible(k, p1, p2) && i < |p1| && n <= |p2|
  {
    if n == 0 then 0.0 else Aggregate(k, p1, p2, i, r, n - 1) + Contribution(k, p1, p2, i, n - 1, r)
  }

  /** `counter(r)`: one aggregate per reference point. */
  function Row(k: Statistic, p1: seq<Point>, p2: seq<Point>, r: real): (row: seq<real>)
    requires Admissible(k, p1, p2)
    ensures |row| == |p1|
  {
    seq(|p1|, i requires 0 <= i < |p1| => Aggregate(k, p1, p2, i, r, |p2|))
  }

  /** The radii iterated over; a bare radius falls back to a one-element list. */
  function Radii(R: Radius): seq<real>
  {
    match R
    case One(r) => [r]
    case Many(rs) => rs
  }

  /** `np.array(count)`: one row per radius, in the order given. */
  function Table(k: Statistic, p1: seq<Point>, p2: seq<Point>, rs: seq<real>): (t: seq<seq<real>>)
    requires Admissible(k, p1, p2)
    ensures |t| == |rs|
  {
    seq(|rs|, m requires 0 <= m < |rs| => Row(k, p1, p2, rs[m]))
  }

  /** The rows an output stands for (a vector is a one-row table). */
  function Rows(o: Out): seq<seq<real>>
  {
    match o
    case Scalar(s) => [[s]]
    case Vec(v) => [v]
    case Mat(m) => m
  }

  /** The per-radius means an output stands for (a scalar is a one-entry vector). */
  function Means(o: Out): seq<real>
  {
    match o
    case Scalar(s) => [s]
    case Vec(v) => v
    case Mat(m) => []
  }

  /** numpy's `.shape` of an output. */
  function Shape(o: Out): seq<nat>
  {
    match o
    case Scalar(_) => []
    case Vec(v) => [|v|]
    case Mat(m) => if |m| == 0 then [0] else [|m|, |m[0]|]
  }

  /** `ret`: the list form keeps the table (a single row collapses to that
      row); the mean form takes each row's mean (a single radius collapses
      to a bare number). Both collapses lose nothing. */
  function Ret(count: seq<seq<real>>, ls: bool): (r: Result<Out, ShapeError>)
    requires !ls ==> forall m :: 0 <= m < |count| ==> |count[m]| > 0
    ensures r.Ok? <==> ls || |count| > 0
    ensures r.Ok? && ls ==> !r.value.Scalar? && Rows(r.value) == count
    ensures r.Ok? && !ls ==>
      && !r.value.Mat?
      && Means(r.value) == seq(|count|, m requires 0 <= m < |count| => Mean(count[m]))
    ensures r.Ok? ==> (|count| == 1 <==> (if ls then r.value.Vec? else r.value.Scalar?))
  {
    if ls then
      Ok(if |count| == 1 then Vec(count[0]) else Mat(count))
    else if |count| == 0 then
      Err(EmptyRadiusList)
    else
      var m := seq(|count|, i requires 0 <= i < |count| => Mean(count[i]));
      Ok(if |m| == 1 then Scalar(m[0]) else Vec(m))
  }

  /** The shared body of the three K-functions: one row per radius, in list
      form or as row means. */
  function KFunction(k: Statistic, p1: seq<Point>, p2: seq<Point>, R: Radius, ls: bool): (o: Result<Out, ShapeError>)
    requires Admissible(k, p1, p2)
    requires !ls ==> |p1| > 0
    ensures o.Ok? <==> ls || |Radii(R)| > 0
    ensures o.Ok? && ls ==> |Rows(o.value)| == |Radii(R)|
    ensures o.Ok? && !ls ==> |Means(o.value)| == |Radii(R)|
  {
    Ret(Table(k, p1, p2, Radii(R)), ls)
  }

  /** `CKfunction`: how many phenotype-2 cells lie within r of each phenotype-1 cell. */
  function CKFunction(p1: seq<Point>, p2: seq<Point>, R: Radius, ls: bool): (o: Result<Out, ShapeError>)
    requires !ls ==> |p1| > 0
    ensures o.Ok? <==> ls || |Radii(R)| > 0
    ensures o.Ok? && ls ==>
      var rows := Rows(o.value);
      && |rows| == |Radii(R)|
      && forall m, i :: 0 <= m < |rows| && 0 <= i < |p1| ==>
           |rows[m]| == |p1| && rows[m][i] == |Neighbours(p1, p2, i, Radii(R)[m], |p2|)| as real
  {
    ListFormRows(Count, p1, p2, R);
    CountsAreNeighbourCounts(p1, p2, Radii(R));
    KFunction(Count, p1, p2, R, ls)
  }

  /** `IKfunction`: the total intensity of the phenotype-2 cells within r. */
  function IKFunction(p1: seq<Point>, p2: seq<Point>, R: Radius, I: seq<real>, ls: bool): (o: Result<Out, ShapeError>)
    requires |I| == |p2|
    requires !ls ==> |p1| > 0
    ensures o.Ok? <==> ls || |Radii(R)| > 0
    ensures (forall j :: 0 <= j < |I| ==> I[j] == 1.0) ==> o == CKFunction(p1, p2, R, ls)
  {
    if forall j :: 0 <= j < |I| ==> I[j] == 1.0 then
      OnesTableIsCountTable(p1, p2, R, I);
      KFunction(Intensity(I), p1, p2, R, ls)
    else
      KFunction(Intensity(I), p1, p2, R, ls)
  }

  /** `IDKfunction`: the intensity within r, each cell weighted by d^-3. */
  function IDKFunction(p1: seq<Point>, p2: seq<Point>, R: Radius, I: seq<real>, D: seq<seq<real>>, ls: bool)
    : (o: Result<Out, ShapeError>)
    requires |I| == |p2| && IsDistanceMatrix(D, p1, p2)
    requires !ls ==> |p1| > 0
    ensures o.Ok? <==> ls || |Radii(R)| > 0
    ensures o.Ok? && ls ==>
      var rows := Rows(o.value);
      && |rows| == |Radii(R)|
      && forall m, i :: 0 <= m < |rows| && 0 <= i < |p1| ==>
           |rows[m]| == |p1|
           && rows[m][i] == Aggregate(Intensity(Reweighted(I, D, i)), p1, p2, i, Radii(R)[m], |p2|)
  {
    ListFormRows(IntensityDistance(I, D), p1, p2, R);
    forall i, r | 0 <= i < |p1| {
      IntensityDistanceIsReweightedIntensity(p1, p2, I, D, i, r, |p2|);
    }
    KFunction(IntensityDistance(I, D), p1, p2, R, ls)
  }

  /** The intensities I[j] / d(i, j)^3 seen from reference point i. */
  function Reweighted(I: seq<real>, D: seq<seq<real>>, i: nat): (w: seq<real>)
    requires i < |D| && |D[i]| == |I| && forall j :: 0 <= j < |I| ==> D[i][j] > 0.0
    ensures |w| == |I|
  {
    seq(|I|, j requires 0 <= j < |I| => I[j] * InverseCube(D[i][j]))
  }

  // ---------------------------------------------------------------------
  // Properties of the per-point aggregates

  /** A larger radius keeps every neighbour of a smaller one. */
  lemma WithinMonotone(a: Point, b: Point, r1: real, r2: real)
    requires r1 <= r2 && Within(a, b, r1)
    ensures Within(a, b, r2)
  {
    assert r1 * r1 <= r1 * r2 <= r2 * r2;
  }

  /** Squaring is strictly increasing on the non-negative reals. */
  lemma SquareLess(x: real, y: real)
    requires 0.0 <= x < y
    ensures x * x < y * y
  {
    var xx, xy, yy := x * x, x * y, y * y;
    assert xx <= xy;
    assert xy < yy;
  }

  /** With a distance d >= 0 whose square is SqDist, `d <= r` is `Within`. */
  lemma DistanceTestIsWithin(a: Point, b: Point, d: real, r: real)
    requires 0.0 <= d && d * d == SqDist(a, b)
    ensures d <= r <==> Within(a, b, r)
  {
    if d <= r {
      assert d * d <= d * r <= r * r;
    } else if 0.0 <= r {
      SquareLess(r, d);
    }
  }

  /** The indices of the first n phenotype-2 points within r of reference point i. */
  ghost function Neighbours(p1: seq<Point>, p2: seq<Point>, i: nat, r: real, n: nat): set<nat>
    requires i < |p1| && n <= |p2|
  {
    set j: nat | j < n && Within(p1[i], p2[j], r)
  }

  /** The count is the number of phenotype-2 points at distance <= r. */
  lemma {:induction false} CountIsNeighbourCount(p1: seq<Point>, p2: seq<Point>, i: nat, r: real, n: nat)
    requires i < |p1| && n <= |p2|
    ensures Aggregate(Count, p1, p2, i, r, n) == |Neighbours(p1, p2, i, r, n)| as real
  {
    if n > 0 {
      CountIsNeighbourCount(p1, p2, i, r, n - 1);
      var before := Neighbours(p1, p2, i, r, n - 1);
      if Within(p1[i], p2[n - 1], r) {
        assert Neighbours(p1, p2, i, r, n) == before + {n - 1};
        assert n - 1 !in before;
      } else {
        assert Neighbours(p1, p2, i, r, n) == before;
      }
    }
  }

  /** Every count of every radius is its neighbour count. */
  lemma CountsAreNeighbourCounts(p1: seq<Point>, p2: seq<Point>, rs: seq<real>)
    ensures forall m, i :: 0 <= m < |rs| && 0 <= i < |p1| ==>
      Aggregate(Count, p1, p2, i, rs[m], |p2|) == |Neighbours(p1, p2, i, rs[m], |p2|)| as real
  {
    forall m, i | 0 <= m < |rs| && 0 <= i < |p1| {
      CountIsNeighbourCount(p1, p2, i, rs[m], |p2|);
    }
  }

  /** The count lies in [0, n]. */
  lemma {:induction false} CountBounded(p1: seq<Point>, p2: seq<Point>, i: nat, r: real, n: nat)
    requires i < |p1| && n <= |p2|
    ensures 0.0 <= Aggregate(Count, p1, p2, i, r, n) <= n as real
  {
    if n > 0 {
      CountBounded(p1, p2, i, r, n - 1);
    }
  }

  /** The count never decreases as the radius grows. */
  lemma {:induction false} CountMonotone(p1: seq<Point>, p2: seq<Point>, i: nat, r1: real, r2: real, n: nat)
    requires i < |p1| && n <= |p2| && r1 <= r2
    ensures Aggregate(Count, p1, p2, i, r1, n) <= Aggregate(Count, p1, p2, i, r2, n)
  {
    if n > 0 {
      CountMonotone(p1, p2, i, r1, r2, n - 1);
      if Within(p1[i], p2[n - 1], r1) {
        WithinMonotone(p1[i], p2[n - 1], r1, r2);
      }
    }
  }

  /** The intensity aggregate with every intensity 1 is the count. */
  lemma {:induction false} IntensityOfOnesIsCount(p1: seq<Point>, p2: seq<Point>, I: seq<real>, i: nat, r: real, n: nat)
    requires |I| == |p2| && forall j :: 0 <= j < |I| ==> I[j] == 1.0
    requires i < |p1| && n <= |p2|
    ensures Aggregate(Intensity(I), p1, p2, i, r, n) == Aggregate(Count, p1, p2, i, r, n)
  {
    if n > 0 {
      IntensityOfOnesIsCount(p1, p2, I, i, r, n - 1);
    }
  }

  /** The distance-weighted aggregate is the intensity aggregate of the
      weights I[j] / d(i, j)^3: same neighbourhood, reweighted per pair. */
  lemma {:induction false} IntensityDistanceIsReweightedIntensity(
    p1: seq<Point>, p2: seq<Point>, I: seq<real>, D: seq<seq<real>>, i: nat, r: real, n: nat)
    requires |I| == |p2| && IsDistanceMatrix(D, p1, p2)
    requires i < |p1| && n <= |p2|
    ensures Aggregate(IntensityDistance(I, D), p1, p2, i, r, n)
         == Aggregate(Intensity(Reweighted(I, D, i)), p1, p2, i, r, n)
  {
    if n > 0 {
      IntensityDistanceIsReweightedIntensity(p1, p2, I, D, i, r, n - 1);
      var j, d := n - 1, D[i][n - 1];
      assert 0.0 < d && d * d == SqDist(p1[i], p2[j]);
      DistanceTestIsWithin(p1[i], p2[j], d, r);
      var w := Reweighted(I, D, i);
      assert w[j] == I[j] * InverseCube(d);
      assert Contribution(IntensityDistance(I, D), p1, p2, i, j, r) == Contribution(Intensity(w), p1, p2, i, j, r);
    }
  }

  // ---------------------------------------------------------------------
  // Properties of the K-functions' results

  /** A bare radius behaves as the one-element list holding it. */
  lemma ScalarRadiusIsSingletonList(k: Statistic, p1: seq<Point>, p2: seq<Point>, r: real, ls: bool)
    requires Admissible(k, p1, p2) && (!ls ==> |p1| > 0)
    ensures KFunction(k, p1, p2, One(r), ls) == KFunction(k, p1, p2, Many([r]), ls)
  {
  }

  /** In list form, row m holds every reference point's aggregate at the m-th
      radius: one row per radius, in the order the radii were given. */
  lemma ListFormRows(k: Statistic, p1: seq<Point>, p2: seq<Point>, R: Radius)
    requires Admissible(k, p1, p2)
    ensures KFunction(k, p1, p2, R, true).Ok?
    ensures var rows := Rows(KFunction(k, p1, p2, R, true).value);
      && |rows| == |Radii(R)|
      && forall m, i :: 0 <= m < |rows| && 0 <= i < |p1| ==>
           |rows[m]| == |p1| && rows[m][i] == Aggregate(k, p1, p2, i, Radii(R)[m], |p2|)
  {
  }

  /** In mean form, entry m is the mean over the reference points of the
      aggregate at the m-th radius; an empty radius list is an error. */
  lemma MeanFormEntries(k: Statistic, p1: seq<Point>, p2: seq<Point>, R: Radius)
    requires Admissible(k, p1, p2) && |p1| > 0
    ensures KFunction(k, p1, p2, R, false).Ok? <==> |Radii(R)| > 0
    ensures KFunction(k, p1, p2, R, false).Ok? ==>
      var means := Means(KFunction(k, p1, p2, R, false).value);
      && |means| == |Radii(R)|
      && forall m :: 0 <= m < |means| ==> means[m] == Mean(Row(k, p1, p2, Radii(R)[m]))
  {
  }

  /** The output shapes: (|p1|,) and () for a bare radius, (k, |p1|) and (k,)
      for a list of k > 1 radii. */
  lemma ShapePolicy(k: Statistic, p1: seq<Point>, p2: seq<Point>, R: Radius)
    requires Admissible(k, p1, p2) && |p1| > 0
    requires R.One? || |Radii(R)| > 1
    ensures KFunction(k, p1, p2, R, true).Ok? && KFunction(k, p1, p2, R, false).Ok?
    ensures R.One? ==> Shape(KFunction(k, p1, p2, R, true).value) == [|p1|]
    ensures R.One? ==> Shape(KFunction(k, p1, p2, R, false).value) == []
    ensures R.Many? ==> Shape(KFunction(k, p1, p2, R, true).value) == [|Radii(R)|, |p1|]
    ensures R.Many? ==> Shape(KFunction(k, p1, p2, R, false).value) == [|Radii(R)|]
  {
    var t := Table(k, p1, p2, Radii(R));
    assert |t[0]| == |p1|;
  }

  /** An empty phenotype-2 set gives every reference point a zero aggregate,
      for every statistic and radius. */
  lemma EmptyTargetsGiveZeros(k: Statistic, p1: seq<Point>, p2: seq<Point>, R: Radius)
    requires Admissible(k, p1, p2) && |p2| == 0
    ensures forall row :: row in Rows(KFunction(k, p1, p2, R, true).value) ==>
      forall i :: 0 <= i < |row| ==> row[i] == 0.0
  {
    ListFormRows(k, p1, p2, R);
  }

  /** With an all-ones intensity vector the intensity table is the count
      table, so `IKfunction` returns what `CKfunction` returns. */
  lemma OnesTableIsCountTable(p1: seq<Point>, p2: seq<Point>, R: Radius, I: seq<real>)
    requires |I| == |p2| && forall j :: 0 <= j < |I| ==> I[j] == 1.0
    ensures Table(Intensity(I), p1, p2, Radii(R)) == Table(Count, p1, p2, Radii(R))
  {
    forall r, i | 0 <= i < |p1| {
      IntensityOfOnesIsCount(p1, p2, I, i, r, |p2|);
    }
    var rs := Radii(R);
    forall m | 0 <= m < |rs| ensures Row(Intensity(I), p1, p2, rs[m]) == Row(Count, p1, p2, rs[m]) {
    }
  }

  /** Every mean-form count lies in [0, |p2|]. */
  lemma CountMeansBounded(p1: seq<Point>, p2: seq<Point>, R: Radius)
    requires |p1| > 0 && |Radii(R)| > 0
    ensures CKFunction(p1, p2, R, false).Ok?
    ensures forall x :: x in Means(CKFunction(p1, p2, R, false).value) ==> 0.0 <= x <= |p2| as real
  {
    MeanFormEntries(Count, p1, p2, R);
    var rs := Radii(R);
    forall m | 0 <= m < |rs| ensures 0.0 <= Mean(Row(Count, p1, p2, rs[m])) <= |p2| as real {
      var row := Row(Count, p1, p2, rs[m]);
      forall i | 0 <= i < |row| ensures 0.0 <= row[i] <= |p2| as real {
        CountBounded(p1, p2, i, rs[m], |p2|);
      }
      MeanWithin(row, 0.0, |p2| as real);
    }
  }

  /** For radii listed in increasing order, each reference point's counts
      never decrease from one row to the next. */
  lemma CountRowsNondecreasing(p1: seq<Point>, p2: seq<Point>, rs: seq<real>)
    requires forall a, b :: 0 <= a < b < |rs| ==> rs[a] <= rs[b]
    ensures CKFunction(p1, p2, Many(rs), true).Ok?
    ensures var rows := Rows(CKFunction(p1, p2, Many(rs), true).value);
      forall a, b, i :: 0 <= a < b < |rows| && 0 <= i < |p1| ==>
        |rows[a]| == |rows[b]| == |p1| && rows[a][i] <= rows[b][i]
  {
    ListFormRows(Count, p1, p2, Many(rs));
    forall a, b, i | 0 <= a < b < |rs| && 0 <= i < |p1| {
      CountMonotone(p1, p2, i, rs[a], rs[b], |p2|);
    }
  }
}
