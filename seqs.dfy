/** Sequence helpers: first-occurrence de-duplication (what a pandas `unique()` returns)
    and sums over reals (what `sum`, `mean` and `np.dot` compute). */
module Seqs {

  /** No element occurs twice. */
  predicate Distinct<T(==)>(s: seq<T>) {
    forall i, j :: 0 <= i < j < |s| ==> s[i] != s[j]
  }

  /** Position of the first occurrence of `x` in `s`. */
  function FirstIndex<T(==)>(s: seq<T>, x: T): (i: nat)
    requires x in s
    ensures i < |s| && s[i] == x
    ensures forall k :: 0 <= k < i ==> s[k] != x
  {
    if s[0] == x then 0 else 1 + FirstIndex(s[1..], x)
  }

  /** The distinct values of `s`, each at the place where it first occurs. */
  function Unique<T(==)>(s: seq<T>): (r: seq<T>)
    ensures |r| <= |s|
  {
    if |s| == 0 then []
    else
      var u := Unique(s[..|s| - 1]);
      var x := s[|s| - 1];
      if x in u then u else u + [x]
  }

  /** `Unique` drops repetitions and nothing else: its elements are distinct and are exactly
      the elements of `s`. */
  lemma {:induction false} UniqueMembers<T>(s: seq<T>)
    ensures Distinct(Unique(s))
    ensures forall i :: 0 <= i < |s| ==> s[i] in Unique(s)
    ensures forall i :: 0 <= i < |Unique(s)| ==> Unique(s)[i] in s
  {
    if |s| > 0 {
      var p := s[..|s| - 1];
      UniqueMembers(p);
      assert forall i :: 0 <= i < |s| - 1 ==> s[i] == p[i];
    }
  }

  lemma FirstIndexOfPrefix<T>(s: seq<T>, x: T, y: T)
    requires y in s
    ensures y in s + [x] && FirstIndex(s + [x], y) == FirstIndex(s, y)
  {
    var i := FirstIndex(s, y);
    var j := FirstIndex(s + [x], y);
    assert (s + [x])[i] == y;
  }

  /** `Unique` keeps the order of first occurrence. */
  lemma {:induction false} UniqueKeepsFirstOccurrenceOrder<T>(s: seq<T>)
    ensures forall i :: 0 <= i < |Unique(s)| ==> Unique(s)[i] in s
    ensures forall i, j :: 0 <= i < j < |Unique(s)| ==>
              FirstIndex(s, Unique(s)[i]) < FirstIndex(s, Unique(s)[j])
  {
    UniqueMembers(s);
    if |s| > 0 {
      var p := s[..|s| - 1];
      var x := s[|s| - 1];
      assert s == p + [x];
      UniqueKeepsFirstOccurrenceOrder(p);
      UniqueMembers(p);
      var u := Unique(p);
      forall y | y in p
        ensures FirstIndex(s, y) == FirstIndex(p, y)
      {
        FirstIndexOfPrefix(p, x, y);
      }
      if x !in u {
        assert x !in p;
        assert FirstIndex(s, x) == |p|;
      }
    }
  }

  /** A distinct sequence has as many elements as its set of elements. */
  lemma {:induction false} DistinctCardinality<T>(s: seq<T>)
    requires Distinct(s)
    ensures |set x | x in s| == |s|
  {
    if |s| > 0 {
      var p := s[..|s| - 1];
      var x := s[|s| - 1];
      DistinctCardinality(p);
      assert (set y | y in s) == (set y | y in p) + {x} by {
        assert s == p + [x];
      }
      assert forall k :: 0 <= k < |p| ==> p[k] == s[k];
    }
  }

  /** A distinct sequence whose elements all occur in `b` is no longer than `Unique(b)`. */
  lemma DistinctSubsetNoLonger<T>(a: seq<T>, b: seq<T>)
    requires Distinct(a)
    requires forall x :: x in a ==> x in b
    ensures |a| <= |Unique(b)|
  {
    UniqueMembers(b);
    DistinctCardinality(a);
    DistinctCardinality(Unique(b));
    var sa := set x | x in a;
    var sb := set x | x in Unique(b);
    forall x | x in sa
      ensures x in sb
    {
      var i :| 0 <= i < |b| && b[i] == x;
    }
    assert sb == sa + (sb - sa);
    assert |sb| == |sa| + |sb - sa|;
  }

  /** Sum of a sequence of reals, from the front. */
  function Sum(s: seq<real>): real {
    if |s| == 0 then 0.0 else s[0] + Sum(s[1..])
  }

  /** Arithmetic mean; pandas' `mean()` of a non-empty column. */
  function Mean(s: seq<real>): real
    requires |s| > 0
  {
    Sum(s) / (|s| as real)
  }

  /** Inner product, as `np.dot` of two equal-length vectors. */
  function Dot(a: seq<real>, b: seq<real>): real
    requires |a| == |b|
  {
    if |a| == 0 then 0.0 else a[0] * b[0] + Dot(a[1..], b[1..])
  }

  lemma {:induction false} SumOfZeros(s: seq<real>)
    requires forall i :: 0 <= i < |s| ==> s[i] == 0.0
    ensures Sum(s) == 0.0
  {
    if |s| > 0 {
      SumOfZeros(s[1..]);
    }
  }

  /** Summing two sequences pointwise sums their sums. */
  lemma {:induction false} SumPointwiseAdd(a: seq<real>, b: seq<real>, c: seq<real>)
    requires |a| == |b| == |c|
    requires forall i :: 0 <= i < |c| ==> c[i] == a[i] + b[i]
    ensures Sum(c) == Sum(a) + Sum(b)
  {
    if |c| > 0 {
      SumPointwiseAdd(a[1..], b[1..], c[1..]);
    }
  }

  /** Dividing every element by `d` divides the sum by `d`. */
  lemma {:induction false} SumScaled(a: seq<real>, c: seq<real>, d: real)
    requires d != 0.0
    requires |a| == |c|
    requires forall i :: 0 <= i < |c| ==> c[i] == a[i] / d
    ensures Sum(c) == Sum(a) / d
  {
    if |c| > 0 {
      SumScaled(a[1..], c[1..], d);
    }
  }

  /** Weighting by all-ones weights is plain summation. */
  lemma {:induction false} DotOnes(ones: seq<real>, w: seq<real>)
    requires |ones| == |w|
    requires forall i :: 0 <= i < |ones| ==> ones[i] == 1.0
    ensures Dot(ones, w) == Sum(w)
  {
    if |w| > 0 {
      DotOnes(ones[1..], w[1..]);
    }
  }

  /** The one-hot vector of a value that occurs once sums to one. */
  lemma {:induction false} SumOfIndicator<T>(v: seq<T>, t: T, c: seq<real>)
    requires Distinct(v) && t in v
    requires |c| == |v|
    requires forall i :: 0 <= i < |c| ==> c[i] == if v[i] == t then 1.0 else 0.0
    ensures Sum(c) == 1.0
  {
    if v[0] == t {
      assert forall k :: 0 <= k < |v| - 1 ==> v[1..][k] == v[k + 1];
      SumOfZeros(c[1..]);
    } else {
      SumOfIndicator(v[1..], t, c[1..]);
    }
  }

  /** Every element in `[lo, hi]` puts the mean in `[lo, hi]`. */
  lemma MeanBetween(s: seq<real>, lo: real, hi: real)
    requires |s| > 0
    requires forall i :: 0 <= i < |s| ==> lo <= s[i] <= hi
    ensures lo <= Mean(s) <= hi
  {
    SumBetween(s, lo, hi);
    var n := |s| as real;
    assert lo * n <= Sum(s) <= hi * n;
    assert lo == lo * n / n && hi == hi * n / n;
  }

  lemma {:induction false} SumBetween(s: seq<real>, lo: real, hi: real)
    requires forall i :: 0 <= i < |s| ==> lo <= s[i] <= hi
    ensures lo * (|s| as real) <= Sum(s) <= hi * (|s| as real)
  {
    if |s| > 0 {
      SumBetween(s[1..], lo, hi);
    }
  }

  /** Weighting deviations from a constant `avg` is the weighted sum minus `avg` times the
      total weight. */
  lemma {:induction false} DotOfDeviations(a: seq<real>, r: seq<real>, c: seq<real>, avg: real)
    requires |a| == |r| == |c|
    requires forall m :: 0 <= m < |c| ==> c[m] == r[m] - avg
    ensures Dot(a, c) == Dot(a, r) - avg * Sum(a)
  {
    if |a| > 0 {
      DotOfDeviations(a[1..], r[1..], c[1..], avg);
    }
  }

  /** Adding `k` times `a` pointwise to `b` adds `k` times the sum of `a` to the sum of `b`. */
  lemma {:induction false} SumScaledPlus(c: seq<real>, a: seq<real>, k: real, b: seq<real>)
    requires |a| == |b| == |c|
    requires forall j :: 0 <= j < |c| ==> c[j] == a[j] * k + b[j]
    ensures Sum(c) == Sum(a) * k + Sum(b)
  {
    if |c| > 0 {
      SumScaledPlus(c[1..], a[1..], k, b[1..]);
    }
  }
}
