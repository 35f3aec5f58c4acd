/** The numpy reductions the K-function code relies on: `np.sum`, `np.mean` and
    `np.var` (population variance, dividing by n) over a vector of reals. */
module Moments {

  /** Sum of the entries, accumulated left to right. */
  function Sum(v: seq<real>): real
  {
    if |v| == 0 then 0.0 else Sum(v[..|v| - 1]) + v[|v| - 1]
  }

  /** Vectors pooled one after another (`np.append` of each in turn). */
  function Concat(vs: seq<seq<real>>): seq<real>
  {
    if |vs| == 0 then [] else Concat(vs[..|vs| - 1]) + vs[|vs| - 1]
  }

  /** Every pooled vector's values are in the pool. */
  lemma {:induction false} ConcatHoldsPart(vs: seq<seq<real>>, f: nat)
    requires f < |vs|
    ensures multiset(vs[f]) <= multiset(Concat(vs))
  {
    var n := |vs| - 1;
    var front := Concat(vs[..n]);
    assert multiset(front + vs[n]) == multiset(front) + multiset(vs[n]);
    if f < n {
      ConcatHoldsPart(vs[..n], f);
      assert vs[..n][f] == vs[f];
    }
  }

  /** Arithmetic mean; numpy returns NaN on an empty vector, which the callers exclude. */
  function Mean(v: seq<real>): real
    requires |v| > 0
  {
    Sum(v) / (|v| as real)
  }

  /** Squared deviation of every entry from `m`. */
  function SquaredDeviations(v: seq<real>, m: real): (d: seq<real>)
    ensures |d| == |v|
  {
    seq(|v|, i requires 0 <= i < |v| => (v[i] - m) * (v[i] - m))
  }

  /** Population variance: the mean squared deviation from the mean. */
  function Variance(v: seq<real>): real
    requires |v| > 0
  {
    Mean(SquaredDeviations(v, Mean(v)))
  }

  lemma {:induction false} SumConcat(a: seq<real>, b: seq<real>)
    ensures Sum(a + b) == Sum(a) + Sum(b)
  {
    if |b| == 0 {
      assert a + b == a;
    } else {
      assert (a + b)[..|a + b| - 1] == a + b[..|b| - 1];
      SumConcat(a, b[..|b| - 1]);
    }
  }

  /** A lower bound of every entry gives n*lo <= Sum(v). */
  lemma {:induction false} SumAtLeast(v: seq<real>, lo: real)
    requires forall i :: 0 <= i < |v| ==> lo <= v[i]
    ensures (|v| as real) * lo <= Sum(v)
  {
    if |v| > 0 {
      SumAtLeast(v[..|v| - 1], lo);
    }
  }

  /** An upper bound of every entry gives Sum(v) <= n*hi. */
  lemma {:induction false} SumAtMost(v: seq<real>, hi: real)
    requires forall i :: 0 <= i < |v| ==> v[i] <= hi
    ensures Sum(v) <= (|v| as real) * hi
  {
    if |v| > 0 {
      SumAtMost(v[..|v| - 1], hi);
    }
  }

  /** The mean lies between any lower and upper bound of the entries. */
  lemma MeanWithin(v: seq<real>, lo: real, hi: real)
    requires |v| > 0
    requires forall i :: 0 <= i < |v| ==> lo <= v[i] <= hi
    ensures lo <= Mean(v) <= hi
  {
    SumAtLeast(v, lo);
    SumAtMost(v, hi);
  }

  /** The mean of a constant vector is that constant. */
  lemma MeanOfConstant(v: seq<real>, c: real)
    requires |v| > 0
    requires forall i :: 0 <= i < |v| ==> v[i] == c
    ensures Mean(v) == c
  {
    MeanWithin(v, c, c);
  }

  /** The population variance is never negative. */
  lemma VarianceNonNegative(v: seq<real>)
    requires |v| > 0
    ensures Variance(v) >= 0.0
  {
    SumAtLeast(SquaredDeviations(v, Mean(v)), 0.0);
  }

  /** A constant vector has variance zero. */
  lemma VarianceOfConstant(v: seq<real>, c: real)
    requires |v| > 0
    requires forall i :: 0 <= i < |v| ==> v[i] == c
    ensures Variance(v) == 0.0
  {
    MeanOfConstant(v, c);
    MeanOfConstant(SquaredDeviations(v, c), 0.0);
  }

  /** Pooling two vectors: the mean of the concatenation is the length-weighted
      mean of the two means. */
  lemma MeanOfConcatenation(a: seq<real>, b: seq<real>)
    requires |a| > 0 && |b| > 0
    ensures Mean(a + b) == ((|a| as real) * Mean(a) + (|b| as real) * Mean(b)) / ((|a| + |b|) as real)
  {
    SumConcat(a, b);
    assert (|a| as real) * Mean(a) == Sum(a);
    assert (|b| as real) * Mean(b) == Sum(b);
  }
}
