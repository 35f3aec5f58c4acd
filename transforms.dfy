/** The per-slice driver: for every field of a slice it selects the two
    phenotypes, warns about empty selections, runs the K-function dispatcher
    and merges its per-kind vectors into one accumulator; it then reduces
    each kind to four named moments and tags the row with the slice index. */
module Transforms {
  import opened Results
  import opened Moments
  import opened Stats
  import opened Cells

  /** The method description the driver reads: the two phenotypes, the
      radius as it is printed into result names, the intensity column and
      the index column. */
  datatype SliceParams = SliceParams(
    phenotype1: Phenotype,
    phenotype2: Phenotype,
    radiusText: string,
    intensity: string,
    indexColumn: string)

  /** Which phenotype selection came out empty. */
  datatype Which = First | Second

  /** The warning printed for an empty selection: the phenotype value and
      the slice index it was printed with. */
  datatype Warning = EmptyPhenotype(which: Which, value: string, index: Option<string>)

  /** `index` is never bound when there are no paths; `.iloc[0]` fails on an
      empty table. */
  datatype SliceError = NoPaths | EmptyTable(field: nat)

  /** The result row: its index value and one column per named moment. */
  datatype SliceRow = SliceRow(index: Option<string>, values: map<string, real>)

  /** The K-function dispatcher, given a field's phenotype-1 and phenotype-2
      coordinates and the phenotype-2 intensities (the radius and the count
      and distance flags are fixed for the run), returns one vector per
      statistic kind. */
  type Dispatcher = (seq<Point>, seq<Point>, seq<real>) -> map<string, seq<real>>

  // ---------------------------------------------------------------------
  // One field

  /** `df[index_column].iloc[0]`; a missing value is None. */
  function IndexOf(cells: seq<Cell>, column: string): (index: Option<string>)
    requires |cells| > 0
    ensures index.Some? <==> column in cells[0].labels
    ensures index.Some? ==> index.value == cells[0].labels[column]
  {
    if column in cells[0].labels then Some(cells[0].labels[column]) else None
  }

  /** The warnings printed for one field, phenotype 1 first. */
  function FieldWarnings(cells: seq<Cell>, p: SliceParams, index: Option<string>): (ws: seq<Warning>)
    ensures EmptyPhenotype(First, p.phenotype1.value, index) in ws <==> |Select(cells, p.phenotype1)| == 0
    ensures EmptyPhenotype(Second, p.phenotype2.value, index) in ws <==> |Select(cells, p.phenotype2)| == 0
    ensures |ws| <= 2 && forall w :: w in ws ==> w.index == index
  {
    var first := if |Select(cells, p.phenotype1)| == 0 then [EmptyPhenotype(First, p.phenotype1.value, index)] else [];
    var second := if |Select(cells, p.phenotype2)| == 0 then [EmptyPhenotype(Second, p.phenotype2.value, index)] else [];
    assert forall w :: w in first + second <==> w in first || w in second;
    first + second
  }

  /** The warnings of all fields, in field order; every field is non-empty. */
  function AllWarnings(tables: seq<seq<Cell>>, p: SliceParams): seq<Warning>
    requires forall f :: 0 <= f < |tables| ==> |tables[f]| > 0
  {
    if |tables| == 0 then []
    else
      var n := |tables| - 1;
      AllWarnings(tables[..n], p) + FieldWarnings(tables[n], p, IndexOf(tables[n], p.indexColumn))
  }

  lemma WarningsStep(tables: seq<seq<Cell>>, p: SliceParams, f: nat)
    requires f < |tables| && forall g :: 0 <= g <= f ==> |tables[g]| > 0
    ensures AllWarnings(tables[..f + 1], p)
      == AllWarnings(tables[..f], p) + FieldWarnings(tables[f], p, IndexOf(tables[f], p.indexColumn))
  {
    assert tables[..f + 1][..f] == tables[..f];
  }

  /** The dispatcher's result for one field. */
  function FieldResult(cells: seq<Cell>, p: SliceParams, kfun: Dispatcher): map<string, seq<real>>
    requires HasChannel(cells, p.phenotype2, p.intensity)
  {
    var pheno2 := Select(cells, p.phenotype2);
    kfun(Positions(Select(cells, p.phenotype1)), Positions(pheno2), Intensities(pheno2, p.intensity))
  }

  function FieldResults(tables: seq<seq<Cell>>, p: SliceParams, kfun: Dispatcher): (rs: seq<map<string, seq<real>>>)
    requires forall f :: 0 <= f < |tables| ==> HasChannel(tables[f], p.phenotype2, p.intensity)
    ensures |rs| == |tables|
  {
    seq(|tables|, f requires 0 <= f < |tables| => FieldResult(tables[f], p, kfun))
  }

  // ---------------------------------------------------------------------
  // The accumulator, as written: np.append's result is dropped

  /** The merge loop over one field's result: a new kind is stored, a kind
      already present keeps its vector, because the array `np.append` builds
      is never assigned back. */
  method MergeFirst(acc: map<string, seq<real>>, fov: map<string, seq<real>>) returns (merged: map<string, seq<real>>)
    ensures merged.Keys == acc.Keys + fov.Keys
    ensures forall k :: k in acc ==> merged[k] == acc[k]
    ensures forall k :: k in fov && k !in acc ==> merged[k] == fov[k]
  {
    merged := acc;
    var keys := fov.Keys;
    while keys != {}
      invariant keys <= fov.Keys
      invariant merged.Keys == acc.Keys + (fov.Keys - keys)
      invariant forall k :: k in acc ==> merged[k] == acc[k]
      invariant forall k :: k in fov && k !in keys && k !in acc ==> merged[k] == fov[k]
      decreases keys
    {
      var key :| key in keys;
      if key !in merged {
        merged := merged[key := fov[key]];
      }
      // otherwise np.append(merged[key], fov[key]) builds a new array that is dropped
      keys := keys - {key};
    }
  }

  /** The accumulator after the given fields: each kind holds the vector of
      the first field that produced it. */
  function FirstWins(rs: seq<map<string, seq<real>>>): (acc: map<string, seq<real>>)
    ensures forall k :: k in acc ==> FromSomeField(rs, k, acc[k])
  {
    if |rs| == 0 then map[]
    else
      var n := |rs| - 1;
      var prev := FirstWins(rs[..n]);
      assert forall k :: k in prev ==> FromSomeField(rs, k, prev[k]) by {
        forall k | k in prev ensures FromSomeField(rs, k, prev[k]) {
          var f :| 0 <= f < n && k in rs[..n][f] && prev[k] == rs[..n][f][k];
          assert rs[..n][f] == rs[f];
        }
      }
      assert forall k :: k in rs[n] ==> FromSomeField(rs, k, rs[n][k]);
      rs[n] + prev
  }

  /** v is field f's vector of kind k, for some field f. */
  ghost predicate FromSomeField(rs: seq<map<string, seq<real>>>, k: string, v: seq<real>)
  {
    exists f :: 0 <= f < |rs| && k in rs[f] && rs[f][k] == v
  }

  /** The accumulator's kinds are the union of the kinds of all fields. */
  lemma {:induction false} FirstWinsKeys(rs: seq<map<string, seq<real>>>)
    ensures forall k :: k in FirstWins(rs) <==> exists f :: 0 <= f < |rs| && k in rs[f]
  {
    if |rs| > 0 {
      var n := |rs| - 1;
      FirstWinsKeys(rs[..n]);
      forall k | k in FirstWins(rs) ensures exists f :: 0 <= f < |rs| && k in rs[f] {
        if k !in rs[n] {
          assert k in FirstWins(rs[..n]);
          var f :| 0 <= f < n && k in rs[..n][f];
          assert k in rs[f];
        }
      }
      forall k | (exists f :: 0 <= f < |rs| && k in rs[f]) ensures k in FirstWins(rs) {
        var f :| 0 <= f < |rs| && k in rs[f];
        if f < n {
          assert k in rs[..n][f];
        }
      }
    }
  }

  /** Each kind holds the vector of the first field that produced it. */
  lemma {:induction false} FirstWinsValue(rs: seq<map<string, seq<real>>>, k: string, f: nat)
    requires f < |rs| && k in rs[f]
    requires forall g :: 0 <= g < f ==> k !in rs[g]
    ensures k in FirstWins(rs) && FirstWins(rs)[k] == rs[f][k]
  {
    var n := |rs| - 1;
    if f < n {
      FirstWinsValue(rs[..n], k, f);
    } else {
      FirstWinsKeys(rs[..n]);
      forall g | 0 <= g < n ensures k !in rs[..n][g] {
        assert rs[..n][g] == rs[g];
      }
    }
  }

  /** One more field: its kinds are added under the earlier ones. */
  lemma FirstWinsStep(rs: seq<map<string, seq<real>>>, f: nat)
    requires f < |rs|
    ensures FirstWins(rs[..f + 1]) == rs[f] + FirstWins(rs[..f])
  {
    assert rs[..f + 1][..f] == rs[..f];
  }

  /** What MergeFirst promises is the map union that keeps the old values. */
  lemma MergedIsUnion(acc: map<string, seq<real>>, fov: map<string, seq<real>>, merged: map<string, seq<real>>)
    requires merged.Keys == acc.Keys + fov.Keys
    requires forall k :: k in acc ==> merged[k] == acc[k]
    requires forall k :: k in fov && k !in acc ==> merged[k] == fov[k]
    ensures merged == fov + acc
  {
  }

  // ---------------------------------------------------------------------
  // The accumulator as intended: every field's vector is kept

  /** `agg[key] = np.append(agg[key], fov[key])`: vectors are concatenated. */
  function MergePooled(acc: map<string, seq<real>>, fov: map<string, seq<real>>): map<string, seq<real>>
  {
    map k | k in acc.Keys + fov.Keys :: (if k in acc then acc[k] else []) + (if k in fov then fov[k] else [])
  }

  /** Some field's result holds kind k. */
  ghost predicate Returns(rs: seq<map<string, seq<real>>>, k: string)
  {
    exists f :: 0 <= f < |rs| && k in rs[f]
  }

  function Pooled(rs: seq<map<string, seq<real>>>): (pool: map<string, seq<real>>)
    ensures forall k :: k in pool <==> Returns(rs, k)
  {
    if |rs| == 0 then map[]
    else
      var n := |rs| - 1;
      var prev := Pooled(rs[..n]);
      assert forall k :: Returns(rs, k) <==> Returns(rs[..n], k) || k in rs[n] by {
        forall k ensures Returns(rs, k) <==> Returns(rs[..n], k) || k in rs[n] {
          ReturnsStep(rs, k);
        }
      }
      MergePooled(prev, rs[n])
  }

  lemma ReturnsStep(rs: seq<map<string, seq<real>>>, k: string)
    requires |rs| > 0
    ensures Returns(rs, k) <==> Returns(rs[..|rs| - 1], k) || k in rs[|rs| - 1]
  {
    var n := |rs| - 1;
    if Returns(rs[..n], k) {
      var f :| 0 <= f < n && k in rs[..n][f];
      assert rs[..n][f] == rs[f];
    }
    if Returns(rs, k) {
      var f :| 0 <= f < |rs| && k in rs[f];
      if f < n {
        assert rs[..n][f] == rs[f];
      }
    }
  }

  /** Kind k's vector from every field, empty where a field lacks the kind. */
  function Parts(rs: seq<map<string, seq<real>>>, k: string): (vs: seq<seq<real>>)
    ensures |vs| == |rs|
  {
    seq(|rs|, f requires 0 <= f < |rs| => if k in rs[f] then rs[f][k] else [])
  }

  lemma {:induction false} ConcatOfEmpties(vs: seq<seq<real>>)
    requires forall f :: 0 <= f < |vs| ==> vs[f] == []
    ensures Concat(vs) == []
  {
    if |vs| > 0 {
      ConcatOfEmpties(vs[..|vs| - 1]);
    }
  }

  /** The corrected pool holds, for each kind, exactly the fields' vectors of
      that kind concatenated in field order; a kind no field returns is absent. */
  lemma {:induction false} PooledIsConcat(rs: seq<map<string, seq<real>>>, k: string)
    ensures k in Pooled(rs) ==> Pooled(rs)[k] == Concat(Parts(rs, k))
    ensures k !in Pooled(rs) ==> Concat(Parts(rs, k)) == []
  {
    if |rs| > 0 {
      var n := |rs| - 1;
      var prev := Pooled(rs[..n]);
      PooledIsConcat(rs[..n], k);
      var vs := Parts(rs, k);
      assert vs[..n] == Parts(rs[..n], k);
      assert Concat(vs) == Concat(Parts(rs[..n], k)) + vs[n];
      if k !in prev {
        assert Concat(Parts(rs[..n], k)) == [];
      }
    }
  }

  /** Pooling keeps every value of every field's vector for its kind. */
  lemma PooledKeepsEveryField(rs: seq<map<string, seq<real>>>, k: string, f: nat)
    requires f < |rs| && k in rs[f]
    ensures k in Pooled(rs) && multiset(rs[f][k]) <= multiset(Pooled(rs)[k])
  {
    assert Returns(rs, k);
    PooledIsConcat(rs, k);
    ConcatHoldsPart(Parts(rs, k), f);
  }

  /** When no two fields produce the same kind, keeping the first vector
      and pooling agree: the dropped append only matters for shared kinds. */
  lemma {:induction false} FirstWinsIsPooledWhenUnshared(rs: seq<map<string, seq<real>>>)
    requires forall k, f, g :: 0 <= f < g < |rs| && k in rs[f] ==> k !in rs[g]
    ensures FirstWins(rs) == Pooled(rs)
  {
    if |rs| > 0 {
      var n := |rs| - 1;
      var front := rs[..n];
      FirstWinsIsPooledWhenUnshared(front);
      var prev := Pooled(front);
      forall k | k in rs[n] ensures k !in prev {
        forall f | 0 <= f < n ensures k !in front[f] {
          assert front[f] == rs[f];
        }
      }
      UnsharedMerge(prev, rs[n]);
    }
  }

  /** Merging a field that shares no kind with the pool is a plain union. */
  lemma UnsharedMerge(prev: map<string, seq<real>>, fov: map<string, seq<real>>)
    requires forall k :: k in fov ==> k !in prev
    ensures fov + prev == MergePooled(prev, fov)
  {
    var merged := MergePooled(prev, fov);
    forall k | k in merged ensures k in fov + prev && (fov + prev)[k] == merged[k] {
      if k in prev {
        assert merged[k] == prev[k] + [];
      } else {
        assert merged[k] == [] + fov[k];
      }
    }
  }

  /** Two fields that both produce "count": as written the second field's
      vector is gone; pooled, both are kept. */
  lemma AppendResultDiscarded()
    ensures var rs := [map["count" := [1.0]], map["count" := [2.0]]];
      && FirstWins(rs)["count"] == [1.0]
      && Pooled(rs)["count"] == [1.0, 2.0]
  {
    var rs: seq<map<string, seq<real>>> := [map["count" := [1.0]], map["count" := [2.0]]];
    var none: seq<map<string, seq<real>>> := [];
    assert rs[..1] == [map["count" := [1.0]]];
    assert rs[..1][..0] == none;
  }

  // ---------------------------------------------------------------------
  // Reduction and naming

  /** The four moments each kind is reduced to. */
  datatype Moment = MeanOf | VarianceOf | SkewOf | KurtosisOf

  function Suffix(m: Moment): string
  {
    match m
    case MeanOf => "mean"
    case VarianceOf => "variance"
    case SkewOf => "skew"
    case KurtosisOf => "kurtosis"
  }

  /** `{pheno1_col}{pheno1_val}_{pheno2_col}{pheno2_val}_{R}_`. */
  function NamePrefix(p: SliceParams): string
  {
    p.phenotype1.column + p.phenotype1.value + "_" + p.phenotype2.column + p.phenotype2.value + "_" + p.radiusText + "_"
  }

  /** `_{intensity_col}_`. */
  function NameInfix(p: SliceParams): string
  {
    "_" + p.intensity + "_"
  }

  /** The output column of moment m of kind `kind`. */
  function OutputName(p: SliceParams, kind: string, m: Moment): string
  {
    NamePrefix(p) + kind + NameInfix(p) + Suffix(m)
  }

  /** A name starts with the prefix, holds the kind right after it and ends
      with the moment's suffix. */
  lemma OutputNameParts(p: SliceParams, kind: string, m: Moment)
    ensures var name := OutputName(p, kind, m);
      && |name| == |NamePrefix(p)| + |kind| + |NameInfix(p)| + |Suffix(m)|
      && name[|name| - |Suffix(m)|..] == Suffix(m)
      && name[|NamePrefix(p)|..|NamePrefix(p)| + |kind|] == kind
  {
  }

  /** No moment's suffix ends another moment's suffix. */
  lemma SuffixesApart(m1: Moment, m2: Moment)
    requires m1 != m2 && |Suffix(m1)| <= |Suffix(m2)|
    ensures Suffix(m2)[|Suffix(m2)| - |Suffix(m1)|..] != Suffix(m1)
  {
    if |Suffix(m1)| == |Suffix(m2)| {
      assert Suffix(m1)[0] != Suffix(m2)[0];
    } else {
      assert Suffix(m2)[4..] == "ance" || Suffix(m2)[4..] == "osis";
    }
  }

  /** For fixed phenotypes, radius and intensity, different (kind, moment)
      pairs get different names, so the 4·|kinds| entries never overwrite
      each other. */
  lemma OutputNamesDistinct(p: SliceParams, k1: string, m1: Moment, k2: string, m2: Moment)
    requires OutputName(p, k1, m1) == OutputName(p, k2, m2)
    ensures k1 == k2 && m1 == m2
  {
    var name := OutputName(p, k1, m1);
    var s1, s2 := Suffix(m1), Suffix(m2);
    OutputNameParts(p, k1, m1);
    OutputNameParts(p, k2, m2);
    if m1 != m2 {
      if |s1| <= |s2| {
        SuffixesApart(m1, m2);
      } else {
        SuffixesApart(m2, m1);
      }
    }
    assert |k1| == |k2|;
  }

  /** `if len(arr) == 0: arr = [0]`. */
  function Guarded(arr: seq<real>): (g: seq<real>)
    ensures |g| > 0
    ensures |arr| > 0 ==> g == arr
  {
    if |arr| == 0 then [0.0] else arr
  }

  /** An empty kind reports mean 0 and variance 0. */
  lemma GuardedEmptyIsZero()
    ensures Mean(Guarded([])) == 0.0 && Variance(Guarded([])) == 0.0
  {
    MeanOfConstant([0.0], 0.0);
    VarianceOfConstant([0.0], 0.0);
  }

  /** Moment m of a non-empty vector. */
  function MomentOf(m: Moment, g: seq<real>, skew: seq<real> -> real, kurtosis: seq<real> -> real): real
    requires |g| > 0
  {
    match m
    case MeanOf => Mean(g)
    case VarianceOf => Variance(g)
    case SkewOf => skew(g)
    case KurtosisOf => kurtosis(g)
  }

  /** The value of moment m for a kind's accumulated vector. */
  function MomentValue(m: Moment, arr: seq<real>, skew: seq<real> -> real, kurtosis: seq<real> -> real): real
  {
    MomentOf(m, Guarded(arr), skew, kurtosis)
  }

  /** The dictionary `data_out` is updated with for one kind. */
  function KindEntries(p: SliceParams, kind: string, g: seq<real>, skew: seq<real> -> real, kurtosis: seq<real> -> real)
    : (e: map<string, real>)
    requires |g| > 0
    ensures forall name :: name in e <==> exists m :: name == OutputName(p, kind, m)
    ensures forall m :: OutputName(p, kind, m) in e && e[OutputName(p, kind, m)] == MomentOf(m, g, skew, kurtosis)
  {
    var e := map[OutputName(p, kind, MeanOf) := Mean(g),
                 OutputName(p, kind, VarianceOf) := Variance(g),
                 OutputName(p, kind, SkewOf) := skew(g),
                 OutputName(p, kind, KurtosisOf) := kurtosis(g)];
    forall m ensures e[OutputName(p, kind, m)] == MomentOf(m, g, skew, kurtosis) {
      forall m' | m' != m ensures OutputName(p, kind, m) != OutputName(p, kind, m') {
        if OutputName(p, kind, m) == OutputName(p, kind, m') {
          OutputNamesDistinct(p, kind, m, kind, m');
        }
      }
    }
    e
  }

  /** `out` has one entry per (kind, moment) pair of the accumulator, named
      by OutputName and holding that moment of the kind's guarded vector. */
  ghost predicate Summarises(out: map<string, real>, p: SliceParams, agg: map<string, seq<real>>,
                             skew: seq<real> -> real, kurtosis: seq<real> -> real)
  {
    SummarisesKinds(out, p, agg, agg.Keys, skew, kurtosis)
  }

  /** The same, for the kinds in `done` only. */
  ghost predicate SummarisesKinds(out: map<string, real>, p: SliceParams, agg: map<string, seq<real>>, done: set<string>,
                                  skew: seq<real> -> real, kurtosis: seq<real> -> real)
    requires done <= agg.Keys
  {
    NamesKinds(out, p, done) && ValuesKinds(out, p, agg, done, skew, kurtosis)
  }

  /** The columns of `out` are exactly the names of the kinds in `done`. */
  ghost predicate NamesKinds(out: map<string, real>, p: SliceParams, done: set<string>)
  {
    forall name :: name in out <==> exists kind, m :: kind in done && name == OutputName(p, kind, m)
  }

  /** Each name of a kind in `done` holds that moment of the kind's vector. */
  ghost predicate ValuesKinds(out: map<string, real>, p: SliceParams, agg: map<string, seq<real>>, done: set<string>,
                              skew: seq<real> -> real, kurtosis: seq<real> -> real)
    requires done <= agg.Keys
  {
    forall kind, m :: kind in done ==>
      OutputName(p, kind, m) in out && out[OutputName(p, kind, m)] == MomentValue(m, agg[kind], skew, kurtosis)
  }

  /** A new kind's names are none of the names already summarised. */
  lemma FreshNames(p: SliceParams, done: set<string>, kind: string, e: map<string, real>)
    requires kind !in done
    requires forall name :: name in e <==> exists m :: name == OutputName(p, kind, m)
    ensures forall k, m :: k in done ==> OutputName(p, k, m) !in e
  {
    forall k, m | k in done ensures OutputName(p, k, m) !in e {
      if OutputName(p, k, m) in e {
        var m' :| OutputName(p, k, m) == OutputName(p, kind, m');
        OutputNamesDistinct(p, k, m, kind, m');
      }
    }
  }

  /** Updating with a new kind's entries summarises one kind more. */
  lemma SummariseStep(out: map<string, real>, p: SliceParams, agg: map<string, seq<real>>, done: set<string>, kind: string,
                      skew: seq<real> -> real, kurtosis: seq<real> -> real)
    requires done <= agg.Keys && kind in agg && kind !in done
    requires SummarisesKinds(out, p, agg, done, skew, kurtosis)
    ensures SummarisesKinds(out + KindEntries(p, kind, Guarded(agg[kind]), skew, kurtosis), p, agg, done + {kind}, skew, kurtosis)
  {
    var e := KindEntries(p, kind, Guarded(agg[kind]), skew, kurtosis);
    FreshNames(p, done, kind, e);
    NamesStep(out, p, done, kind, e);
    ValuesStep(out, p, agg, done, kind, skew, kurtosis);
  }

  lemma NamesStep(out: map<string, real>, p: SliceParams, done: set<string>, kind: string, e: map<string, real>)
    requires NamesKinds(out, p, done)
    requires forall name :: name in e <==> exists m :: name == OutputName(p, kind, m)
    ensures NamesKinds(out + e, p, done + {kind})
  {
  }

  lemma ValuesStep(out: map<string, real>, p: SliceParams, agg: map<string, seq<real>>, done: set<string>, kind: string,
                   skew: seq<real> -> real, kurtosis: seq<real> -> real)
    requires done <= agg.Keys && kind in agg && kind !in done
    requires ValuesKinds(out, p, agg, done, skew, kurtosis)
    ensures ValuesKinds(out + KindEntries(p, kind, Guarded(agg[kind]), skew, kurtosis), p, agg, done + {kind}, skew, kurtosis)
  {
    var e := KindEntries(p, kind, Guarded(agg[kind]), skew, kurtosis);
    FreshNames(p, done, kind, e);
    var o := out + e;
    forall k, m | k in done + {kind}
      ensures OutputName(p, k, m) in o && o[OutputName(p, k, m)] == MomentValue(m, agg[k], skew, kurtosis)
    {
      if k == kind {
        assert OutputName(p, k, m) in e;
      } else {
        assert OutputName(p, k, m) !in e;
      }
    }
  }

  /** The reduction loop: `data_out.update` with the four entries per kind. */
  method Summarise(agg: map<string, seq<real>>, p: SliceParams, skew: seq<real> -> real, kurtosis: seq<real> -> real)
    returns (out: map<string, real>)
    ensures Summarises(out, p, agg, skew, kurtosis)
  {
    out := map[];
    var kinds := agg.Keys;
    ghost var done: set<string> := {};
    while kinds != {}
      invariant kinds <= agg.Keys && done <= agg.Keys
      invariant kinds == agg.Keys - done
      invariant SummarisesKinds(out, p, agg, done, skew, kurtosis)
      decreases kinds
    {
      var kind :| kind in kinds;
      var arr := agg[kind];
      if |arr| == 0 {
        arr := [0.0];
      }
      assert arr == Guarded(agg[kind]);
      SummariseStep(out, p, agg, done, kind, skew, kurtosis);
      out := out + KindEntries(p, kind, arr, skew, kurtosis);
      done := done + {kind};
      kinds := kinds - {kind};
    }
    assert done == agg.Keys;
  }

  // ---------------------------------------------------------------------
  // The slice

  /** One field of the loop: the index, the selections, their warnings and
      the dispatcher's result. */
  method ProcessField(cells: seq<Cell>, p: SliceParams, kfun: Dispatcher)
    returns (index: Option<string>, warnings: seq<Warning>, fov: map<string, seq<real>>)
    requires |cells| > 0 && HasChannel(cells, p.phenotype2, p.intensity)
    ensures index == IndexOf(cells, p.indexColumn)
    ensures warnings == FieldWarnings(cells, p, index)
    ensures fov == FieldResult(cells, p, kfun)
  {
    index := IndexOf(cells, p.indexColumn);
    var pheno1 := Select(cells, p.phenotype1);
    var pheno2 := Select(cells, p.phenotype2);
    var p1XY := Positions(pheno1);
    var p2XY := Positions(pheno2);
    var I := Intensities(pheno2, p.intensity);
    warnings := FieldWarnings(cells, p, index);
    fov := kfun(p1XY, p2XY, I);
  }

  /** The field loop: for each table in turn, look up the index, select the
      phenotypes, warn about empty selections, run the dispatcher and merge
      its result. Fails on the first empty table. */
  method AccumulateFields(tables: seq<seq<Cell>>, p: SliceParams, kfun: Dispatcher)
    returns (res: Result<(Option<string>, map<string, seq<real>>), SliceError>, warnings: seq<Warning>)
    requires forall f :: 0 <= f < |tables| ==> HasChannel(tables[f], p.phenotype2, p.intensity)
    ensures res.Ok? <==> forall f :: 0 <= f < |tables| ==> |tables[f]| > 0
    ensures res.Err? ==>
      && res.error.EmptyTable?
      && var f := res.error.field;
      && f < |tables| && |tables[f]| == 0
      && (forall g :: 0 <= g < f ==> |tables[g]| > 0)
      && warnings == AllWarnings(tables[..f], p)
    ensures res.Ok? ==>
      && warnings == AllWarnings(tables, p)
      && (|tables| > 0 ==> res.value.0 == IndexOf(tables[|tables| - 1], p.indexColumn))
      && res.value.1 == FirstWins(FieldResults(tables, p, kfun))
  {
    ghost var rs := FieldResults(tables, p, kfun);
    var agg: map<string, seq<real>> := map[];
    var index: Option<string> := None;
    warnings := [];
    for f := 0 to |tables|
      invariant forall g :: 0 <= g < f ==> |tables[g]| > 0
      invariant agg == FirstWins(rs[..f])
      invariant warnings == AllWarnings(tables[..f], p)
      invariant f > 0 ==> index == IndexOf(tables[f - 1], p.indexColumn)
    {
      var cells := tables[f];
      if |cells| == 0 {
        return Err(EmptyTable(f)), warnings;
      }
      assert forall g :: 0 <= g < f + 1 ==> |tables[g]| > 0;
      var fieldWarnings, fov;
      index, fieldWarnings, fov := ProcessField(cells, p, kfun);
      warnings := warnings + fieldWarnings;
      WarningsStep(tables, p, f);
      assert fov == rs[f];
      FirstWinsStep(rs, f);
      ghost var prev := agg;
      agg := MergeFirst(agg, fov);
      MergedIsUnion(prev, fov, agg);
    }
    assert tables[..|tables|] == tables && rs[..|tables|] == rs;
    return Ok((index, agg)), warnings;
  }

  /** `runKfunction(cell_paths, method_data)` over the slice's field tables:
      fails on the first empty table or when there are none; otherwise the
      row is indexed by the last table's first index value and holds the
      named moments of the first vector per kind; the warnings are those of
      every field in order. */
  method RunSlice(tables: seq<seq<Cell>>, p: SliceParams, kfun: Dispatcher,
                  skew: seq<real> -> real, kurtosis: seq<real> -> real)
    returns (res: Result<SliceRow, SliceError>, warnings: seq<Warning>)
    requires forall f :: 0 <= f < |tables| ==> HasChannel(tables[f], p.phenotype2, p.intensity)
    ensures res == Err(NoPaths) <==> |tables| == 0
    ensures res.Ok? <==> |tables| > 0 && forall f :: 0 <= f < |tables| ==> |tables[f]| > 0
    ensures res.Err? && res.error.EmptyTable? ==>
      var f := res.error.field;
      && f < |tables| && |tables[f]| == 0
      && (forall g :: 0 <= g < f ==> |tables[g]| > 0)
      && warnings == AllWarnings(tables[..f], p)
    ensures res.Ok? ==>
      && warnings == AllWarnings(tables, p)
      && res.value.index == IndexOf(tables[|tables| - 1], p.indexColumn)
      && Summarises(res.value.values, p, FirstWins(FieldResults(tables, p, kfun)), skew, kurtosis)
  {
    var acc;
    acc, warnings := AccumulateFields(tables, p, kfun);
    if acc.Err? {
      return Err(acc.error), warnings;
    }
    var (index, agg) := acc.value;
    var values := Summarise(agg, p, skew, kurtosis);
    if |tables| == 0 {
      return Err(NoPaths), warnings;
    }
    return Ok(SliceRow(index, values)), warnings;
  }
}
