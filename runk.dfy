/** The per-region driver (`runKfunction` in runK.py): check that the
    detection and phenotype listings pair up, parse each field name
    `patient_region_..._..._fov`, build the patient -> region -> records table,
    append one moment record per field, then replace every region's records
    by their N-weighted mean moment vector. */
module RunK {
  import opened Results
  import opened Moments
  import opened Stats
  import opened Cells

  /** `method_data`: the two phenotype predicates and the intensity channel. */
  datatype MethodData = MethodData(phenotype1: Phenotype, phenotype2: Phenotype, intensity: string)

  /** One field's record `{"Moment": [mean, var, skew, kurtosis], "N": |p1|}`. */
  datatype Record = Record(moment: seq<real>, n: nat)

  /** A table entry: the region's field records, until aggregation overwrites
      the list with the weighted moment vector. */
  datatype Group = Fields(records: seq<Record>) | Reduced(moments: seq<real>)

  /** `data`: patient -> region -> entry. */
  type GroupTable = map<string, map<string, Group>>

  /** The exceptions that abort the run: a failed listing assertion, or an
      IndexError while reading segment 1 or 4 of a field name. */
  datatype RunError = ListingMismatch | MissingRegion(name: string) | MissingFov(name: string)

  /** The fixed radius the driver evaluates the intensity K-function at. */
  const KRadius: real := 60.0

  // ---------------------------------------------------------------------
  // Field names

  /** Python's `s.split(sep)`: the maximal runs between separators, so there
      is always at least one (possibly empty) segment. */
  function Split(s: string, sep: char): (parts: seq<string>)
    ensures |parts| >= 1
    ensures forall k :: 0 <= k < |parts| ==> sep !in parts[k]
  {
    if |s| == 0 then [""]
    else
      var rest := Split(s[1..], sep);
      if s[0] == sep then [""] + rest else [[s[0]] + rest[0]] + rest[1..]
  }

  /** `sep.join(parts)`. */
  function Join(parts: seq<string>, sep: char): string
    requires |parts| >= 1
  {
    if |parts| == 1 then parts[0] else parts[0] + [sep] + Join(parts[1..], sep)
  }

  /** Splitting loses nothing: joining the segments gives back the name. */
  lemma {:induction false} JoinSplit(s: string, sep: char)
    ensures Join(Split(s, sep), sep) == s
  {
    if |s| > 0 {
      var rest := Split(s[1..], sep);
      JoinSplit(s[1..], sep);
      if s[0] != sep && |rest| > 1 {
        assert Join(rest, sep) == rest[0] + [sep] + Join(rest[1..], sep);
        assert ([[s[0]] + rest[0]] + rest[1..])[1..] == rest[1..];
      }
      assert s == [s[0]] + s[1..];
    }
  }

  /** A segment without separators, followed by a separator, splits off whole. */
  lemma {:induction false} SplitSegment(w: string, t: string, sep: char)
    requires sep !in w
    ensures Split(w + [sep] + t, sep) == [w] + Split(t, sep)
  {
    if |w| > 0 {
      SplitSegment(w[1..], t, sep);
      var s := w + [sep] + t;
      assert s[0] == w[0] && s[1..] == w[1..] + [sep] + t;
      var rest := Split(s[1..], sep);
      assert rest[0] == w[1..] && rest[1..] == Split(t, sep);
      assert [w[0]] + w[1..] == w;
    } else {
      assert w + [sep] + t == [sep] + t;
    }
  }

  /** A string without separators is a single segment. */
  lemma {:induction false} SplitWhole(w: string, sep: char)
    requires sep !in w
    ensures Split(w, sep) == [w]
  {
    if |w| > 0 {
      SplitWhole(w[1..], sep);
      assert w == [w[0]] + w[1..];
    }
  }

  /** Splitting undoes joining separator-free segments. */
  lemma {:induction false} SplitJoin(parts: seq<string>, sep: char)
    requires |parts| >= 1 && forall k :: 0 <= k < |parts| ==> sep !in parts[k]
    ensures Split(Join(parts, sep), sep) == parts
  {
    if |parts| == 1 {
      SplitWhole(parts[0], sep);
    } else {
      SplitJoin(parts[1..], sep);
      SplitSegment(parts[0], Join(parts[1..], sep), sep);
    }
  }

  function Segments(name: string): seq<string>
  {
    Split(name, '_')
  }

  /** `labels[0]`: always present. */
  function PatientOf(name: string): string
  {
    Segments(name)[0]
  }

  /** `labels[1]` exists. */
  predicate HasRegion(name: string)
  {
    |Segments(name)| >= 2
  }

  /** `labels[4]` exists. */
  predicate HasFov(name: string)
  {
    |Segments(name)| >= 5
  }

  /** The (patient, region) group a field belongs to. */
  function KeyOf(name: string): (string, string)
    requires HasRegion(name)
  {
    (Segments(name)[0], Segments(name)[1])
  }

  /** A name assembled from five or more `_`-free segments parses back into
      patient = segment 0, region = segment 1 and fov = segment 4. */
  lemma FieldNameParts(parts: seq<string>)
    requires |parts| >= 5 && forall k :: 0 <= k < |parts| ==> '_' !in parts[k]
    ensures var name := Join(parts, '_');
      && HasFov(name) && HasRegion(name)
      && PatientOf(name) == parts[0]
      && KeyOf(name) == (parts[0], parts[1])
      && Segments(name)[4] == parts[4]
  {
    SplitJoin(parts, '_');
  }

  // ---------------------------------------------------------------------
  // The listing check

  /** `assert len(dfiles) == len(pfiles)` and `assert dfiles[i] == pfiles[i]`. */
  method CheckListings(dfiles: seq<string>, pfiles: seq<string>) returns (ok: bool)
    ensures ok <==> dfiles == pfiles
  {
    if |dfiles| != |pfiles| {
      return false;
    }
    for i := 0 to |dfiles|
      invariant dfiles[..i] == pfiles[..i]
    {
      if dfiles[i] != pfiles[i] {
        return false;
      }
    }
    assert dfiles == dfiles[..|dfiles|] && pfiles == pfiles[..|pfiles|];
    return true;
  }

  // ---------------------------------------------------------------------
  // Grouping fields by key

  /** The values whose key is k, in listing order. */
  function Filter<K(==), V>(keys: seq<K>, vals: seq<V>, k: K): (g: seq<V>)
    requires |keys| == |vals|
    ensures |g| <= |keys|
    ensures forall v :: v in g ==> v in vals
  {
    if |keys| == 0 then []
    else
      var n := |keys| - 1;
      Filter(keys[..n], vals[..n], k) + (if keys[n] == k then [vals[n]] else [])
  }

  /** How many times k occurs. */
  function Occurrences<K(==)>(keys: seq<K>, k: K): nat
  {
    if |keys| == 0 then 0
    else Occurrences(keys[..|keys| - 1], k) + (if keys[|keys| - 1] == k then 1 else 0)
  }

  /** The distinct keys, in order of first occurrence. */
  function Distinct<K(==)>(keys: seq<K>): seq<K>
  {
    if |keys| == 0 then []
    else
      var n := |keys| - 1;
      Distinct(keys[..n]) + (if keys[n] in keys[..n] then [] else [keys[n]])
  }

  /** Sum over the listed keys of how often each occurs. */
  function SumOccurrences<K(==)>(ds: seq<K>, keys: seq<K>): nat
  {
    if |ds| == 0 then 0 else SumOccurrences(ds[..|ds| - 1], keys) + Occurrences(keys, ds[|ds| - 1])
  }

  /** A group holds one value per occurrence of its key. */
  lemma {:induction false} GroupSize<K, V>(keys: seq<K>, vals: seq<V>, k: K)
    requires |keys| == |vals|
    ensures |Filter(keys, vals, k)| == Occurrences(keys, k)
  {
    if |keys| > 0 {
      GroupSize(keys[..|keys| - 1], vals[..|vals| - 1], k);
    }
  }

  /** A key that occurs somewhere occurs at least once. */
  lemma {:induction false} OccursWhenPresent<K>(keys: seq<K>, k: K)
    ensures k in keys <==> Occurrences(keys, k) > 0
  {
    if |keys| > 0 {
      var n := |keys| - 1;
      OccursWhenPresent(keys[..n], k);
      assert keys == keys[..n] + [keys[n]];
    }
  }

  /** Distinct lists each key exactly once. */
  lemma {:induction false} DistinctIsExact<K>(keys: seq<K>)
    ensures forall k :: k in Distinct(keys) <==> k in keys
    ensures forall a, b :: 0 <= a < b < |Distinct(keys)| ==> Distinct(keys)[a] != Distinct(keys)[b]
  {
    if |keys| > 0 {
      var n := |keys| - 1;
      DistinctIsExact(keys[..n]);
      assert keys == keys[..n] + [keys[n]];
    }
  }

  /** A distinct key is a key of the listing. */
  lemma DistinctMember<K>(keys: seq<K>, k: K)
    requires k in Distinct(keys)
    ensures k in keys
  {
    DistinctIsExact(keys);
  }

  /** Adding one key to the listing adds one occurrence to the sum over a
      list of distinct keys holding it, and none when they do not. */
  lemma {:induction false} SumOccurrencesStep<K>(ds: seq<K>, keys: seq<K>, x: K)
    requires forall a, b :: 0 <= a < b < |ds| ==> ds[a] != ds[b]
    ensures SumOccurrences(ds, keys + [x]) == SumOccurrences(ds, keys) + (if x in ds then 1 else 0)
  {
    if |ds| > 0 {
      var m := |ds| - 1;
      SumOccurrencesStep(ds[..m], keys, x);
      assert (keys + [x])[..|keys|] == keys;
      assert ds == ds[..m] + [ds[m]];
      if ds[m] == x {
        assert x !in ds[..m];
      }
    }
  }

  /** Every field is counted in exactly one group: summed over the distinct
      keys, the group sizes add up to the number of fields. */
  lemma {:induction false} OccurrencesPartition<K>(keys: seq<K>)
    ensures SumOccurrences(Distinct(keys), keys) == |keys|
  {
    if |keys| > 0 {
      var n := |keys| - 1;
      var front, x := keys[..n], keys[n];
      assert keys == front + [x];
      OccurrencesPartition(front);
      DistinctIsExact(front);
      DistinctIsExact(keys);
      SumOccurrencesStep(Distinct(front), front, x);
      if x !in front {
        OccursWhenPresent(front, x);
        var d := Distinct(front);
        assert Distinct(keys) == d + [x];
        assert (d + [x])[..|d|] == d;
        assert SumOccurrences(d + [x], keys) == SumOccurrences(d, keys) + Occurrences(keys, x);
        assert Occurrences(keys, x) == Occurrences(front, x) + 1;
      } else {
        assert Distinct(keys) == Distinct(front);
      }
    }
  }

  // ---------------------------------------------------------------------
  // The table after setup and after the field loop

  ghost function Patients(names: seq<string>): set<string>
  {
    set i | 0 <= i < |names| :: PatientOf(names[i])
  }

  ghost function Keys(names: seq<string>): set<(string, string)>
    requires forall i :: 0 <= i < |names| ==> HasRegion(names[i])
  {
    set i | 0 <= i < |names| :: KeyOf(names[i])
  }

  /** Every field's group key, in listing order. */
  function KeysOf(names: seq<string>): (ks: seq<(string, string)>)
    requires forall i :: 0 <= i < |names| ==> HasRegion(names[i])
    ensures |ks| == |names|
  {
    seq(|names|, i requires 0 <= i < |names| => KeyOf(names[i]))
  }

  /** The (patient, region) pairs of the table are exactly `keys`. */
  ghost predicate Layout(data: GroupTable, keys: set<(string, string)>)
  {
    forall p, r :: (p in data && r in data[p]) <==> (p, r) in keys
  }

  /** The group of each pair holds the records `rs` of the fields whose key,
      among `ks`, is that pair, in listing order. */
  ghost predicate Holds(data: GroupTable, ks: seq<(string, string)>, rs: seq<Record>)
    requires |ks| == |rs|
  {
    forall p, r :: p in data && r in data[p] ==> data[p][r] == Fields(Filter(ks, rs, (p, r)))
  }

  /** The table has exactly the listing's patients and (patient, region)
      pairs, and its groups hold the records of the fields seen so far. */
  ghost predicate GroupsHold(data: GroupTable, names: seq<string>, ks: seq<(string, string)>, rs: seq<Record>)
    requires forall i :: 0 <= i < |names| ==> HasRegion(names[i])
    requires |ks| == |rs|
  {
    data.Keys == Patients(names) && Layout(data, Keys(names)) && Holds(data, ks, rs)
  }

  lemma PatientsStep(names: seq<string>, i: nat)
    requires i < |names|
    ensures Patients(names[..i + 1]) == Patients(names[..i]) + {PatientOf(names[i])}
  {
    var a, b := names[..i + 1], names[..i];
    forall x | x in Patients(a) ensures x in Patients(b) + {PatientOf(names[i])} {
      var k :| 0 <= k < |a| && PatientOf(a[k]) == x;
      if k < i { assert b[k] == a[k]; }
    }
    forall x | x in Patients(b) + {PatientOf(names[i])} ensures x in Patients(a) {
      if x == PatientOf(names[i]) {
        assert a[i] == names[i];
      } else {
        var k :| 0 <= k < |b| && PatientOf(b[k]) == x;
        assert a[k] == b[k];
      }
    }
  }

  lemma KeysStep(names: seq<string>, i: nat)
    requires i < |names| && forall k :: 0 <= k <= i ==> HasRegion(names[k])
    ensures Keys(names[..i + 1]) == Keys(names[..i]) + {KeyOf(names[i])}
  {
    var a, b := names[..i + 1], names[..i];
    forall x | x in Keys(a) ensures x in Keys(b) + {KeyOf(names[i])} {
      var k :| 0 <= k < |a| && KeyOf(a[k]) == x;
      if k < i { assert b[k] == a[k]; }
    }
    forall x | x in Keys(b) + {KeyOf(names[i])} ensures x in Keys(a) {
      if x == KeyOf(names[i]) {
        assert a[i] == names[i];
      } else {
        var k :| 0 <= k < |b| && KeyOf(b[k]) == x;
        assert a[k] == b[k];
      }
    }
  }

  /** Setting one (patient, region) entry of a present patient adds that
      pair to the layout. */
  lemma LayoutStep(data: GroupTable, keys: set<(string, string)>, p: string, r: string, g: Group)
    requires Layout(data, keys) && p in data
    ensures Layout(data[p := data[p][r := g]], keys + {(p, r)})
  {
  }

  /** Appending field i's record to the group of its own key extends every
      group to the listing's first i + 1 fields. */
  lemma HoldsStep(data: GroupTable, ks: seq<(string, string)>, rs: seq<Record>, i: nat)
    requires |ks| == |rs| && i < |ks| && Holds(data, ks[..i], rs[..i])
    requires ks[i].0 in data && ks[i].1 in data[ks[i].0]
    ensures var (p, r) := ks[i];
      Holds(data[p := data[p][r := Fields(data[p][r].records + [rs[i]])]], ks[..i + 1], rs[..i + 1])
  {
    var ks', rs' := ks[..i + 1], rs[..i + 1];
    assert ks'[..i] == ks[..i] && rs'[..i] == rs[..i];
  }

  /** Setup (both loops): one empty list per (patient, region) pair. An
      unsplittable name aborts in the second loop. */
  method BuildTable(names: seq<string>) returns (res: Result<GroupTable, RunError>)
    ensures res.Ok? <==> forall i :: 0 <= i < |names| ==> HasRegion(names[i])
    ensures res.Err? ==> exists i :: 0 <= i < |names| && !HasRegion(names[i]) && res.error == MissingRegion(names[i])
                                 && forall k :: 0 <= k < i ==> HasRegion(names[k])
    ensures res.Ok? ==> GroupsHold(res.value, names, [], [])
  {
    var data: GroupTable := map[];
    for i := 0 to |names|
      invariant data.Keys == Patients(names[..i])
      invariant forall p :: p in data ==> data[p] == map[]
    {
      PatientsStep(names, i);
      data := data[PatientOf(names[i]) := map[]];
    }
    assert names[..|names|] == names;
    for i := 0 to |names|
      invariant data.Keys == Patients(names)
      invariant forall k :: 0 <= k < i ==> HasRegion(names[k])
      invariant Layout(data, Keys(names[..i]))
      invariant forall p, r :: p in data && r in data[p] ==> data[p][r] == Fields([])
    {
      var labels := Split(names[i], '_');
      if |labels| < 2 {
        return Err(MissingRegion(names[i]));
      }
      var patient, region := labels[0], labels[1];
      assert patient in Patients(names) by {
        assert PatientOf(names[i]) in Patients(names);
      }
      KeysStep(names, i);
      LayoutStep(data, Keys(names[..i]), patient, region, Fields([]));
      data := data[patient := data[patient][region := Fields([])]];
    }
    assert names[..|names|] == names;
    return Ok(data);
  }

  /** `data[patient][region].append(d)` for field i: the table after the
      first i fields becomes the table after the first i + 1. */
  lemma AppendStep(data: GroupTable, names: seq<string>, ks: seq<(string, string)>, rs: seq<Record>, i: nat)
    requires forall k :: 0 <= k < |names| ==> HasRegion(names[k])
    requires |ks| == |rs| && i < |ks| && ks[i] in Keys(names)
    requires GroupsHold(data, names, ks[..i], rs[..i])
    ensures var (p, r) := ks[i];
      && p in data && r in data[p] && data[p][r].Fields?
      && GroupsHold(data[p := data[p][r := Fields(data[p][r].records + [rs[i]])]], names, ks[..i + 1], rs[..i + 1])
  {
    var (p, r) := ks[i];
    var g := Fields(data[p][r].records + [rs[i]]);
    HoldsStep(data, ks, rs, i);
    LayoutStep(data, Keys(names), p, r, g);
    assert Keys(names) + {(p, r)} == Keys(names);
  }

  // ---------------------------------------------------------------------
  // One field's record

  /** The field can be reduced to moments: it has phenotype-1 cells (numpy's
      moments of an empty vector are NaN) and its phenotype-2 cells carry
      the intensity channel. */
  predicate FieldUsable(cells: seq<Cell>, md: MethodData)
  {
    |Select(cells, md.phenotype1)| > 0 && HasChannel(cells, md.phenotype2, md.intensity)
  }

  /** `IKfunction(p1XY, p2XY, 60, I, ls=True)`: for each phenotype-1 cell,
      the total intensity of the phenotype-2 cells within 60 units. */
  function FieldK(cells: seq<Cell>, md: MethodData): (k: seq<real>)
    requires HasChannel(cells, md.phenotype2, md.intensity)
    ensures var p1XY := Positions(Select(cells, md.phenotype1));
      var p2 := Select(cells, md.phenotype2);
      var p2XY := Positions(p2);
      && |k| == |p1XY|
      && forall i :: 0 <= i < |k| ==>
           k[i] == Aggregate(Intensity(Intensities(p2, md.intensity)), p1XY, p2XY, i, KRadius, |p2XY|)
  {
    var p1XY := Positions(Select(cells, md.phenotype1));
    var p2 := Select(cells, md.phenotype2);
    var p2XY := Positions(p2);
    var I := Intensities(p2, md.intensity);
    var out := IKFunction(p1XY, p2XY, One(KRadius), I, true);
    assert Rows(out.value) == [Row(Intensity(I), p1XY, p2XY, KRadius)];
    out.value.v
  }

  /** The field's record: the four moments of its K vector, weighted by the
      number of phenotype-1 cells. */
  function FieldRecord(cells: seq<Cell>, md: MethodData, skew: seq<real> -> real, kurtosis: seq<real> -> real): (rec: Record)
    requires FieldUsable(cells, md)
    ensures rec.n == |Select(cells, md.phenotype1)| > 0
    ensures |rec.moment| == 4 && rec.moment[1] >= 0.0
  {
    var k := FieldK(cells, md);
    VarianceNonNegative(k);
    Record([Mean(k), Variance(k), skew(k), kurtosis(k)], |k|)
  }

  /** The records of all fields, in listing order. */
  function FieldRecords(tables: seq<seq<Cell>>, md: MethodData, skew: seq<real> -> real, kurtosis: seq<real> -> real): (recs: seq<Record>)
    requires forall f :: 0 <= f < |tables| ==> FieldUsable(tables[f], md)
    ensures |recs| == |tables|
  {
    seq(|tables|, f requires 0 <= f < |tables| => FieldRecord(tables[f], md, skew, kurtosis))
  }

  /** The field loop: each field appends its record to its own group. A name
      without a fourth `_` aborts when it is reached. */
  method FillTable(names: seq<string>, tables: seq<seq<Cell>>, md: MethodData,
                   skew: seq<real> -> real, kurtosis: seq<real> -> real, data: GroupTable)
    returns (res: Result<GroupTable, RunError>)
    requires |tables| == |names|
    requires forall i :: 0 <= i < |names| ==> HasRegion(names[i])
    requires forall f :: 0 <= f < |tables| ==> FieldUsable(tables[f], md)
    requires GroupsHold(data, names, [], [])
    ensures res.Ok? <==> forall i :: 0 <= i < |names| ==> HasFov(names[i])
    ensures res.Err? ==> exists i :: 0 <= i < |names| && !HasFov(names[i]) && res.error == MissingFov(names[i])
                                 && forall k :: 0 <= k < i ==> HasFov(names[k])
    ensures res.Ok? ==> GroupsHold(res.value, names, KeysOf(names), FieldRecords(tables, md, skew, kurtosis))
  {
    ghost var ks := KeysOf(names);
    ghost var recs := FieldRecords(tables, md, skew, kurtosis);
    var table := data;
    for i := 0 to |names|
      invariant forall k :: 0 <= k < i ==> HasFov(names[k])
      invariant GroupsHold(table, names, ks[..i], recs[..i])
    {
      var labels := Split(names[i], '_');
      if |labels| < 5 {
        return Err(MissingFov(names[i]));
      }
      assert forall k :: 0 <= k < i + 1 ==> HasFov(names[k]);
      var patient, region := labels[0], labels[1];
      var rec := FieldRecord(tables[i], md, skew, kurtosis);
      assert (patient, region) == ks[i] && rec == recs[i];
      assert ks[i] in Keys(names) by {
        assert KeyOf(names[i]) in Keys(names);
      }
      AppendStep(table, names, ks, recs, i);
      table := table[patient := table[patient][region := Fields(table[patient][region].records + [rec])]];
    }
    assert ks[..|names|] == ks && recs[..|names|] == recs;
    return Ok(table);
  }

  /** The total number of records in the groups equals the number of fields. */
  lemma TotalRecordsIsFieldCount(names: seq<string>, recs: seq<Record>, data: GroupTable)
    requires forall i :: 0 <= i < |names| ==> HasRegion(names[i])
    requires |recs| == |names|
    requires GroupsHold(data, names, KeysOf(names), recs)
    ensures GroupTotal(data, Distinct(KeysOf(names))) == |names|
  {
    var ks := KeysOf(names);
    DistinctIsExact(ks);
    forall d: (string, string) | d in Distinct(ks) ensures d in ks {
      DistinctMember(ks, d);
    }
    GroupTotalIsOccurrences(data, names, recs, Distinct(ks));
    OccurrencesPartition(ks);
  }

  /** Sum of the group sizes over a list of keys. */
  function GroupTotal(data: GroupTable, ds: seq<(string, string)>): nat
  {
    if |ds| == 0 then 0
    else
      var d := ds[|ds| - 1];
      GroupTotal(data, ds[..|ds| - 1])
        + (if d.0 in data && d.1 in data[d.0] && data[d.0][d.1].Fields? then |data[d.0][d.1].records| else 0)
  }

  lemma {:induction false} GroupTotalIsOccurrences(data: GroupTable, names: seq<string>, recs: seq<Record>, ds: seq<(string, string)>)
    requires forall i :: 0 <= i < |names| ==> HasRegion(names[i])
    requires |recs| == |names|
    requires GroupsHold(data, names, KeysOf(names), recs)
    requires forall d :: d in ds ==> d in KeysOf(names)
    ensures GroupTotal(data, ds) == SumOccurrences(ds, KeysOf(names))
  {
    if |ds| > 0 {
      var d := ds[|ds| - 1];
      GroupTotalIsOccurrences(data, names, recs, ds[..|ds| - 1]);
      assert d in ds;
      var i :| 0 <= i < |names| && KeysOf(names)[i] == d;
      assert d in Keys(names);
      GroupSize(KeysOf(names), recs, d);
    }
  }

  // ---------------------------------------------------------------------
  // Weighted aggregation

  /** Sum of N over the records. */
  function TotalWeight(recs: seq<Record>): nat
  {
    if |recs| == 0 then 0 else TotalWeight(recs[..|recs| - 1]) + recs[|recs| - 1].n
  }

  /** The records hold four-moment vectors and some weight. */
  predicate Weighable(recs: seq<Record>)
  {
    (forall f :: 0 <= f < |recs| ==> |recs[f].moment| == 4) && TotalWeight(recs) > 0
  }

  /** Sum of Moment[c] * N over the records. */
  function WeightedSum(recs: seq<Record>, c: nat): real
    requires c < 4 && forall f :: 0 <= f < |recs| ==> |recs[f].moment| == 4
  {
    if |recs| == 0 then 0.0
    else WeightedSum(recs[..|recs| - 1], c) + recs[|recs| - 1].moment[c] * (recs[|recs| - 1].n as real)
  }

  /** Sum(Moment_f * N_f) / Sum(N_f), component by component. */
  function WeightedMean(recs: seq<Record>): (m: seq<real>)
    requires Weighable(recs)
    ensures |m| == 4
  {
    seq(4, c requires 0 <= c < 4 => WeightedSum(recs, c) / (TotalWeight(recs) as real))
  }

  /** The inner aggregation loop for one region. */
  method WeightedMoments(recs: seq<Record>) returns (moments: seq<real>)
    requires Weighable(recs)
    ensures moments == WeightedMean(recs)
  {
    var weight: nat := 0;
    moments := [0.0, 0.0, 0.0, 0.0];
    for f := 0 to |recs|
      invariant weight == TotalWeight(recs[..f])
      invariant |moments| == 4 && forall c :: 0 <= c < 4 ==> moments[c] == WeightedSum(recs[..f], c)
    {
      assert recs[..f + 1][..f] == recs[..f];
      weight := weight + recs[f].n;
      moments := seq(4, c requires 0 <= c < 4 => moments[c] + recs[f].moment[c] * (recs[f].n as real));
    }
    assert recs[..|recs|] == recs;
    moments := seq(4, c requires 0 <= c < 4 => moments[c] / (weight as real));
  }

  /** The aggregation loops: every group's record list is overwritten by the
      weighted mean of its moment vectors; the keys stay as they are. */
  method AggregateGroups(data: GroupTable) returns (out: GroupTable)
    requires forall p, r :: p in data && r in data[p] ==> data[p][r].Fields? && Weighable(data[p][r].records)
    ensures out.Keys == data.Keys
    ensures forall p :: p in data ==> out[p].Keys == data[p].Keys
    ensures forall p, r :: p in data && r in data[p] ==> out[p][r] == Reduced(WeightedMean(data[p][r].records))
  {
    out := data;
    var patients := data.Keys;
    while patients != {}
      invariant patients <= data.Keys
      invariant out.Keys == data.Keys
      invariant forall q :: q in patients ==> out[q] == data[q]
      invariant forall q, r :: q in data && q !in patients && r in data[q] ==>
        r in out[q] && out[q][r] == Reduced(WeightedMean(data[q][r].records))
      invariant forall q :: q in data ==> out[q].Keys == data[q].Keys
      decreases patients
    {
      var p :| p in patients;
      var reduced := ReduceRegions(data[p]);
      out := out[p := reduced];
      patients := patients - {p};
    }
  }

  /** The inner aggregation loop for one patient: each region's record list
      is overwritten by its weighted moments. */
  method ReduceRegions(groups: map<string, Group>) returns (out: map<string, Group>)
    requires forall r :: r in groups ==> groups[r].Fields? && Weighable(groups[r].records)
    ensures out.Keys == groups.Keys
    ensures forall r :: r in groups ==> out[r] == Reduced(WeightedMean(groups[r].records))
  {
    out := groups;
    var regions := groups.Keys;
    while regions != {}
      invariant regions <= groups.Keys
      invariant out.Keys == groups.Keys
      invariant forall r :: r in regions ==> out[r] == groups[r]
      invariant forall r :: r in groups && r !in regions ==> out[r] == Reduced(WeightedMean(groups[r].records))
      decreases regions
    {
      var r :| r in regions;
      var moments := WeightedMoments(groups[r].records);
      out := out[r := Reduced(moments)];
      regions := regions - {r};
    }
  }

  /** With equal N for every field the weighted mean is the plain average. */
  lemma EqualWeightsGivePlainAverage(recs: seq<Record>, n: nat, c: nat)
    requires Weighable(recs) && c < 4
    requires forall f :: 0 <= f < |recs| ==> recs[f].n == n
    ensures |recs| > 0 && n > 0
    ensures WeightedMean(recs)[c] == Mean(Component(recs, c))
  {
    EqualWeightsSums(recs, n, c);
    ProductPositive(n, |recs|);
    RealProduct(n, |recs|);
    var ws, wt := WeightedSum(recs, c), TotalWeight(recs) as real;
    assert WeightedMean(recs)[c] == ws / wt;
    QuotientOfScaled(ws, wt, Sum(Component(recs, c)), |recs| as real, n as real);
  }

  lemma ProductPositive(n: nat, k: nat)
    requires n * k > 0
    ensures n > 0 && k > 0
  {
  }

  lemma RealProduct(n: nat, k: nat)
    ensures (n * k) as real == (n as real) * (k as real)
  {
  }

  /** A quotient whose both sides carry the same non-zero factor w is the
      quotient without it. */
  lemma QuotientOfScaled(num: real, den: real, s: real, k: real, w: real)
    requires k != 0.0 && w != 0.0 && num == w * s && den == w * k
    ensures num / den == s / k
  {
    var a := s / k;
    assert a * k == s;
    assert den * a == num;
    assert den != 0.0;
    var q := num / den;
    assert q * den == num;
    var e := q - a;
    assert e * den == 0.0;
  }

  /** Component c of every record's moment vector. */
  function Component(recs: seq<Record>, c: nat): (v: seq<real>)
    requires c < 4 && forall f :: 0 <= f < |recs| ==> |recs[f].moment| == 4
    ensures |v| == |recs|
  {
    seq(|recs|, f requires 0 <= f < |recs| => recs[f].moment[c])
  }

  lemma {:induction false} EqualWeightsSums(recs: seq<Record>, n: nat, c: nat)
    requires c < 4 && forall f :: 0 <= f < |recs| ==> |recs[f].moment| == 4
    requires forall f :: 0 <= f < |recs| ==> recs[f].n == n
    ensures TotalWeight(recs) == n * |recs|
    ensures WeightedSum(recs, c) == (n as real) * Sum(Component(recs, c))
  {
    if |recs| > 0 {
      var m := |recs| - 1;
      EqualWeightsSums(recs[..m], n, c);
      assert Component(recs, c)[..m] == Component(recs[..m], c);
    }
  }

  /** Bounds on a component over the group's fields bound the aggregate:
      it lies between that component's minimum and maximum. */
  lemma WeightedMeanWithin(recs: seq<Record>, c: nat, lo: real, hi: real)
    requires Weighable(recs) && c < 4
    requires forall f :: 0 <= f < |recs| ==> lo <= recs[f].moment[c] <= hi
    ensures lo <= WeightedMean(recs)[c] <= hi
  {
    WeightedSumWithin(recs, c, lo, hi);
    var w := TotalWeight(recs) as real;
    var s := WeightedSum(recs, c);
    assert WeightedMean(recs)[c] == s / w;
    QuotientWithin(s, w, lo, hi);
  }

  /** Dividing bounds of the form lo * w <= s <= hi * w by a positive w. */
  lemma QuotientWithin(s: real, w: real, lo: real, hi: real)
    requires w > 0.0 && lo * w <= s <= hi * w
    ensures lo <= s / w <= hi
  {
    var q := s / w;
    assert q * w == s;
    CancelPositive(lo, q, w);
    CancelPositive(q, hi, w);
  }

  /** a * w <= b * w with w > 0 gives a <= b. */
  lemma CancelPositive(a: real, b: real, w: real)
    requires w > 0.0 && a * w <= b * w
    ensures a <= b
  {
    var d, e, iw := b - a, (b - a) * w, 1.0 / w;
    assert e == b * w - a * w;
    assert iw * w == 1.0;
    ScaleMonotone(0.0, e, iw);
    assert e * iw == d * (w * iw);
  }

  /** Multiplying both sides of a <= b by n >= 0 keeps the order. */
  lemma ScaleMonotone(a: real, b: real, n: real)
    requires a <= b && 0.0 <= n
    ensures a * n <= b * n
  {
    var d := b - a;
    assert d * n >= 0.0;
    assert b * n == a * n + d * n;
  }

  lemma WeightedSumWithin(recs: seq<Record>, c: nat, lo: real, hi: real)
    requires c < 4 && forall f :: 0 <= f < |recs| ==> |recs[f].moment| == 4
    requires forall f :: 0 <= f < |recs| ==> lo <= recs[f].moment[c] <= hi
    ensures lo * (TotalWeight(recs) as real) <= WeightedSum(recs, c) <= hi * (TotalWeight(recs) as real)
  {
    WeightedSumAtLeast(recs, c, lo);
    WeightedSumAtMost(recs, c, hi);
  }

  lemma {:induction false} WeightedSumAtLeast(recs: seq<Record>, c: nat, lo: real)
    requires c < 4 && forall f :: 0 <= f < |recs| ==> |recs[f].moment| == 4
    requires forall f :: 0 <= f < |recs| ==> lo <= recs[f].moment[c]
    ensures lo * (TotalWeight(recs) as real) <= WeightedSum(recs, c)
  {
    if |recs| > 0 {
      var m := |recs| - 1;
      var front := recs[..m];
      WeightedSumAtLeast(front, c, lo);
      var x, n := recs[m].moment[c], recs[m].n as real;
      var t, a := TotalWeight(front) as real, WeightedSum(front, c);
      assert WeightedSum(recs, c) == a + x * n;
      LowerStep(lo, x, n, t, TotalWeight(recs) as real, a);
    }
  }

  lemma {:induction false} WeightedSumAtMost(recs: seq<Record>, c: nat, hi: real)
    requires c < 4 && forall f :: 0 <= f < |recs| ==> |recs[f].moment| == 4
    requires forall f :: 0 <= f < |recs| ==> recs[f].moment[c] <= hi
    ensures WeightedSum(recs, c) <= hi * (TotalWeight(recs) as real)
  {
    if |recs| > 0 {
      var m := |recs| - 1;
      var front := recs[..m];
      WeightedSumAtMost(front, c, hi);
      var x, n := recs[m].moment[c], recs[m].n as real;
      var t, a := TotalWeight(front) as real, WeightedSum(front, c);
      assert WeightedSum(recs, c) == a + x * n;
      UpperStep(hi, x, n, t, TotalWeight(recs) as real, a);
    }
  }

  /** Adding a record of weight n and value x >= lo keeps the lower bound. */
  lemma LowerStep(lo: real, x: real, n: real, t: real, total: real, a: real)
    requires lo <= x && 0.0 <= n && total == t + n && lo * t <= a
    ensures lo * total <= a + x * n
  {
    ScaleMonotone(lo, x, n);
    assert lo * total == lo * t + lo * n;
  }

  /** Adding a record of weight n and value x <= hi keeps the upper bound. */
  lemma UpperStep(hi: real, x: real, n: real, t: real, total: real, a: real)
    requires x <= hi && 0.0 <= n && total == t + n && a <= hi * t
    ensures a + x * n <= hi * total
  {
    ScaleMonotone(x, hi, n);
    assert hi * total == hi * t + hi * n;
  }

  /** The mean component is exact: when each record holds the mean of a
      field's K vector weighted by that vector's length, the aggregated mean
      is the mean of all the fields' vectors pooled together. */
  lemma {:induction false} AggregatedMeanIsPooledMean(recs: seq<Record>, vs: seq<seq<real>>)
    requires |recs| == |vs| && |vs| > 0
    requires forall f :: 0 <= f < |recs| ==> |recs[f].moment| == 4
    requires forall f :: 0 <= f < |recs| ==> recs[f].n == |vs[f]| > 0 && recs[f].moment[0] == Mean(vs[f])
    ensures Weighable(recs) && |Concat(vs)| > 0
    ensures WeightedMean(recs)[0] == Mean(Concat(vs))
  {
    PooledSums(recs, vs);
  }

  lemma {:induction false} PooledSums(recs: seq<Record>, vs: seq<seq<real>>)
    requires |recs| == |vs|
    requires forall f :: 0 <= f < |recs| ==> |recs[f].moment| == 4
    requires forall f :: 0 <= f < |recs| ==> recs[f].n == |vs[f]| > 0 && recs[f].moment[0] == Mean(vs[f])
    ensures TotalWeight(recs) == |Concat(vs)|
    ensures |vs| > 0 ==> TotalWeight(recs) > 0
    ensures WeightedSum(recs, 0) == Sum(Concat(vs))
  {
    if |recs| > 0 {
      var m := |recs| - 1;
      PooledSums(recs[..m], vs[..m]);
      SumConcat(Concat(vs[..m]), vs[m]);
      assert Mean(vs[m]) * (|vs[m]| as real) == Sum(vs[m]);
    }
  }

  // ---------------------------------------------------------------------
  // The whole run

  /** `runKfunction(detection_path, phenotype_path, method_data)`, with the
      directory listings and the joined per-field tables as inputs. */
  method RunK(dfiles: seq<string>, pfiles: seq<string>, tables: seq<seq<Cell>>, md: MethodData,
              skew: seq<real> -> real, kurtosis: seq<real> -> real)
    returns (res: Result<GroupTable, RunError>)
    requires |tables| == |dfiles|
    requires forall f :: 0 <= f < |tables| ==> FieldUsable(tables[f], md)
    ensures res == Err(ListingMismatch) <==> dfiles != pfiles
    ensures dfiles == pfiles ==> (res.Ok? <==> forall i :: 0 <= i < |dfiles| ==> HasFov(dfiles[i]))
    ensures res.Err? && res.error.MissingRegion? ==>
      exists i :: 0 <= i < |dfiles| && !HasRegion(dfiles[i]) && res.error.name == dfiles[i]
        && forall k :: 0 <= k < i ==> HasRegion(dfiles[k])
    ensures res.Err? && res.error.MissingFov? ==>
      && (forall k :: 0 <= k < |dfiles| ==> HasRegion(dfiles[k]))
      && exists i :: 0 <= i < |dfiles| && !HasFov(dfiles[i]) && res.error.name == dfiles[i]
           && forall k :: 0 <= k < i ==> HasFov(dfiles[k])
    ensures res.Ok? ==>
      && (forall i :: 0 <= i < |dfiles| ==> HasRegion(dfiles[i]))
      && res.value.Keys == Patients(dfiles)
      && (forall p, r :: (p in res.value && r in res.value[p]) <==> (p, r) in Keys(dfiles))
      && (forall p, r :: p in res.value && r in res.value[p] ==>
            var g := Filter(KeysOf(dfiles), FieldRecords(tables, md, skew, kurtosis), (p, r));
            Weighable(g) && res.value[p][r] == Reduced(WeightedMean(g)))
  {
    var ok := CheckListings(dfiles, pfiles);
    if !ok {
      return Err(ListingMismatch);
    }
    var setup := BuildTable(dfiles);
    if setup.Err? {
      return Err(setup.error);
    }
    var filled := FillTable(dfiles, tables, md, skew, kurtosis, setup.value);
    if filled.Err? {
      return Err(filled.error);
    }
    var data: GroupTable := filled.value;
    GroupsWeighable(data, dfiles, FieldRecords(tables, md, skew, kurtosis));
    var out := AggregateGroups(data);
    return Ok(out);
  }

  /** Every group of a filled table is a non-empty list of usable records. */
  lemma GroupsWeighable(data: GroupTable, names: seq<string>, recs: seq<Record>)
    requires forall i :: 0 <= i < |names| ==> HasRegion(names[i])
    requires |recs| == |names|
    requires forall f :: 0 <= f < |recs| ==> recs[f].n > 0 && |recs[f].moment| == 4
    requires GroupsHold(data, names, KeysOf(names), recs)
    ensures forall p, r :: p in data && r in data[p] ==>
      var g := Filter(KeysOf(names), recs, (p, r));
      data[p][r] == Fields(g) && Weighable(g)
  {
    var ks := KeysOf(names);
    forall p, r | p in data && r in data[p]
      ensures Weighable(Filter(ks, recs, (p, r)))
    {
      var g := Filter(ks, recs, (p, r));
      assert (p, r) in Keys(names);
      var i :| 0 <= i < |names| && KeyOf(names[i]) == (p, r);
      assert ks[i] == (p, r);
      OccursWhenPresent(ks, (p, r));
      GroupSize(ks, recs, (p, r));
      forall f | 0 <= f < |g| ensures |g[f].moment| == 4 && g[f].n > 0 {
        assert g[f] in g;
        var j :| 0 <= j < |recs| && recs[j] == g[f];
      }
      PositiveWeight(g, 0);
    }
  }

  /** A record with positive N gives the list positive total weight. */
  lemma {:induction false} PositiveWeight(recs: seq<Record>, f: nat)
    requires f < |recs| && recs[f].n > 0
    ensures TotalWeight(recs) > 0
  {
    if f < |recs| - 1 {
      PositiveWeight(recs[..|recs| - 1], f);
    }
  }
}
