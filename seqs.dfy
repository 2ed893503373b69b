/** Sequences standing for unordered query sets: filtering (a queryset
    `.filter`/`.exclude`) and summing a per-element value (`sum` over a list
    comprehension, or an SQL `Avg`). The lemmas show that what the model
    computes depends only on the multiset of elements, never on their order. */
module Seqs {

  /** The elements of `s` that satisfy `p`, in their original order. */
  function Filter<T(!new)>(s: seq<T>, p: T -> bool): (r: seq<T>)
    ensures |r| <= |s|
    ensures forall x :: x in r <==> x in s && p(x)
  {
    if s == [] then []
    else if p(s[0]) then [s[0]] + Filter(s[1..], p)
    else Filter(s[1..], p)
  }

  /** Filtering keeps every occurrence of a satisfying element and drops the rest. */
  lemma {:induction false} FilterMultiset<T(!new)>(s: seq<T>, p: T -> bool, x: T)
    ensures multiset(Filter(s, p))[x] == if p(x) then multiset(s)[x] else 0
  {
    if s != [] {
      assert s == [s[0]] + s[1..];
      FilterMultiset(s[1..], p, x);
    }
  }

  /** Filtering keeps every element exactly when every element satisfies the predicate. */
  lemma {:induction false} FilterKeepsAll<T(!new)>(s: seq<T>, p: T -> bool)
    ensures |Filter(s, p)| == |s| <==> forall x :: x in s ==> p(x)
  {
    if s != [] {
      FilterKeepsAll(s[1..], p);
      assert forall x :: x in s <==> x == s[0] || x in s[1..];
    }
  }

  /** Filtering keeps nothing exactly when no element satisfies the predicate. */
  lemma FilterKeepsNone<T(!new)>(s: seq<T>, p: T -> bool)
    ensures |Filter(s, p)| == 0 <==> forall x :: x in s ==> !p(x)
  {
    if |Filter(s, p)| != 0 {
      assert Filter(s, p)[0] in Filter(s, p);
    }
  }

  /** The filtered multiset is determined by the input multiset. */
  lemma FilterPermutation<T(!new)>(a: seq<T>, b: seq<T>, p: T -> bool)
    requires multiset(a) == multiset(b)
    ensures multiset(Filter(a, p)) == multiset(Filter(b, p))
    ensures |Filter(a, p)| == |Filter(b, p)|
  {
    var fa, fb := Filter(a, p), Filter(b, p);
    forall x ensures multiset(fa)[x] == multiset(fb)[x] {
      FilterMultiset(a, p, x);
      FilterMultiset(b, p, x);
    }
    assert multiset(fa) == multiset(fb);
    assert |fa| == |multiset(fa)|;
  }

  /** The sum of `f` over the elements of `s`. */
  function SumOf<T>(s: seq<T>, f: T -> real): real
  {
    if s == [] then 0.0 else f(s[0]) + SumOf(s[1..], f)
  }

  lemma {:induction false} SumOfConcat<T>(a: seq<T>, b: seq<T>, f: T -> real)
    ensures SumOf(a + b, f) == SumOf(a, f) + SumOf(b, f)
  {
    if a != [] {
      assert (a + b)[0] == a[0];
      assert (a + b)[1..] == a[1..] + b;
      SumOfConcat(a[1..], b, f);
      assert SumOf(a + b, f) == f(a[0]) + SumOf(a[1..] + b, f);
    } else {
      assert a + b == b;
    }
  }

  /** A sum over a permuted sequence is the same sum. */
  lemma {:induction false} SumOfPermutation<T>(a: seq<T>, b: seq<T>, f: T -> real)
    requires multiset(a) == multiset(b)
    ensures SumOf(a, f) == SumOf(b, f)
    decreases |a|
  {
    if a == [] {
      assert |b| == |multiset(b)| == 0;
    } else {
      var x := a[0];
      assert x in multiset(b);
      var j :| 0 <= j < |b| && b[j] == x;
      var rest := b[..j] + b[j + 1..];
      assert b == b[..j] + ([x] + b[j + 1..]);
      assert a == [x] + a[1..];
      RemoveAt(a, 0);
      RemoveAt(b, j);
      assert a[..0] + a[1..] == a[1..];
      SumOfPermutation(a[1..], rest, f);
      SumOfConcat(b[..j], [x] + b[j + 1..], f);
      SumOfConcat([x], b[j + 1..], f);
      SumOfConcat(b[..j], b[j + 1..], f);
      assert SumOf([x], f) == f(x);
    }
  }

  /** Removing the element at index j removes one occurrence of it from the multiset. */
  lemma RemoveAt<T>(b: seq<T>, j: nat)
    requires j < |b|
    ensures multiset(b[..j] + b[j + 1..]) == multiset(b) - multiset{b[j]}
  {
    assert b == b[..j] + [b[j]] + b[j + 1..];
  }

  /** If every term is at least lo, the sum of n terms is at least n*lo. */
  lemma {:induction false} SumOfAtLeast<T>(s: seq<T>, f: T -> real, lo: real)
    requires forall x :: x in s ==> lo <= f(x)
    ensures |s| as real * lo <= SumOf(s, f)
  {
    if s != [] {
      SumOfAtLeast(s[1..], f, lo);
      assert s[0] in s;
    }
  }

  /** If every term is at most hi, the sum of n terms is at most n*hi. */
  lemma {:induction false} SumOfAtMost<T>(s: seq<T>, f: T -> real, hi: real)
    requires forall x :: x in s ==> f(x) <= hi
    ensures SumOf(s, f) <= |s| as real * hi
  {
    if s != [] {
      SumOfAtMost(s[1..], f, hi);
      assert s[0] in s;
    }
  }

  /** The mean of terms that are all at least lo (at most hi) is at least lo (at most hi). */
  lemma MeanBounds<T>(s: seq<T>, f: T -> real, lo: real, hi: real)
    requires |s| > 0
    ensures (forall x :: x in s ==> lo <= f(x)) ==> lo <= SumOf(s, f) / |s| as real
    ensures (forall x :: x in s ==> f(x) <= hi) ==> SumOf(s, f) / |s| as real <= hi
  {
    var n := |s| as real;
    var mean := SumOf(s, f) / n;
    assert mean * n == SumOf(s, f);
    if forall x :: x in s ==> lo <= f(x) {
      SumOfAtLeast(s, f, lo);
      MeanAtLeast(SumOf(s, f), n, lo);
    }
    if forall x :: x in s ==> f(x) <= hi {
      SumOfAtMost(s, f, hi);
      MeanAtMost(SumOf(s, f), n, hi);
    }
  }

  lemma MeanAtLeast(sum: real, n: real, lo: real)
    requires n > 0.0 && n * lo <= sum
    ensures lo <= sum / n
  {
    assert sum / n * n == sum;
  }

  lemma MeanAtMost(sum: real, n: real, hi: real)
    requires n > 0.0 && sum <= n * hi
    ensures sum / n <= hi
  {
    assert sum / n * n == sum;
  }
}
