/** Small value types and sequence helpers shared by the simulation modules. */
module Util {

  datatype Option<+T> = None | Some(value: T)

  /** No object (or value) occurs twice in `s`: every list of animals is of this kind. */
  ghost predicate Distinct<T>(s: seq<T>)
  {
    forall i, j :: 0 <= i < j < |s| ==> s[i] != s[j]
  }

  /** A list whose set of elements lies within that of another has all its elements there. */
  lemma Within<T>(s0: seq<T>, s1: seq<T>, m0: set<T>, m1: set<T>)
    requires m0 == (set a | a in s0) && m1 == (set a | a in s1) && m1 <= m0
    ensures forall a :: a in s1 ==> a in s0
  {
    forall a | a in s1 ensures a in s0 {
      assert a in m1;
    }
  }

  /** A list is its first `n` elements followed by the rest. */
  lemma Halves<T>(s: seq<T>, n: nat)
    requires n <= |s|
    ensures s == s[..n] + s[n..]
  {
  }

  /** The elements of `s` whose flag in `keep` is set, in their original order. */
  function Filter<T>(s: seq<T>, keep: seq<bool>): (r: seq<T>)
    requires |keep| == |s|
    ensures |r| <= |s|
    decreases |s|
  {
    if s == [] then []
    else (if keep[0] then [s[0]] else []) + Filter(s[1..], keep[1..])
  }

  /** Number of set flags. */
  function Count(keep: seq<bool>): nat
  {
    if keep == [] then 0 else (if keep[0] then 1 else 0) + Count(keep[1..])
  }

  lemma {:induction false} FilterLength<T>(s: seq<T>, keep: seq<bool>)
    requires |keep| == |s|
    ensures |Filter(s, keep)| == Count(keep)
    decreases |s|
  {
    if s != [] {
      FilterLength(s[1..], keep[1..]);
    }
  }

  /** Everything `Filter` keeps was in `s`, with no more copies than `s` had. */
  lemma {:induction false} FilterSubMultiset<T>(s: seq<T>, keep: seq<bool>)
    requires |keep| == |s|
    ensures multiset(Filter(s, keep)) <= multiset(s)
    decreases |s|
  {
    if s != [] {
      FilterSubMultiset(s[1..], keep[1..]);
      assert s == [s[0]] + s[1..];
    }
  }

  /** Splitting the input splits the output: used by loops that filter one element at a time. */
  lemma {:induction false} FilterAppend<T>(s: seq<T>, keep: seq<bool>, x: T, b: bool)
    requires |keep| == |s|
    ensures Filter(s + [x], keep + [b]) == Filter(s, keep) + (if b then [x] else [])
    decreases |s|
  {
    if s == [] {
      assert Filter([x], [b]) == (if b then [x] else []) + Filter([], []);
    } else {
      assert (s + [x])[1..] == s[1..] + [x];
      assert (keep + [b])[1..] == keep[1..] + [b];
      FilterAppend(s[1..], keep[1..], x, b);
    }
  }

  /** Counting the flags of a concatenation. */
  lemma {:induction false} CountAppend(a: seq<bool>, b: seq<bool>)
    ensures Count(a + b) == Count(a) + Count(b)
    decreases |a|
  {
    if a == [] {
      assert a + b == b;
    } else {
      assert (a + b)[1..] == a[1..] + b;
      CountAppend(a[1..], b);
    }
  }

  /** Prefix of a filter result: filtering a longer input keeps the shorter result as a prefix. */
  lemma {:induction false} FilterPrefix<T>(s: seq<T>, keep: seq<bool>, i: nat)
    requires |keep| == |s| && i <= |s|
    ensures Filter(s, keep) == Filter(s[..i], keep[..i]) + Filter(s[i..], keep[i..])
    decreases |s|
  {
    if i == 0 {
      assert s[..0] == [] && keep[..0] == [];
      assert s[0..] == s && keep[0..] == keep;
    } else {
      assert s[..i][1..] == s[1..][..i-1];
      assert keep[..i][1..] == keep[1..][..i-1];
      assert s[i..] == s[1..][i-1..];
      assert keep[i..] == keep[1..][i-1..];
      FilterPrefix(s[1..], keep[1..], i - 1);
    }
  }

  /** Elements of a filter result are elements of the input. */
  lemma {:induction false} FilterMember<T>(s: seq<T>, keep: seq<bool>, x: T)
    requires |keep| == |s|
    requires x in Filter(s, keep)
    ensures exists i :: 0 <= i < |s| && s[i] == x && keep[i]
    decreases |s|
  {
    if s[0] == x && keep[0] {
    } else {
      FilterMember(s[1..], keep[1..], x);
      var i :| 0 <= i < |s[1..]| && s[1..][i] == x && keep[1..][i];
      assert s[i + 1] == x && keep[i + 1];
    }
  }

  /** Keeping a subsequence of a duplicate-free sequence keeps it duplicate-free. */
  lemma {:induction false} FilterDistinct<T>(s: seq<T>, keep: seq<bool>)
    requires |keep| == |s| && Distinct(s)
    ensures Distinct(Filter(s, keep))
    decreases |s|
  {
    if s != [] {
      assert Distinct(s[1..]);
      FilterDistinct(s[1..], keep[1..]);
      var rest := Filter(s[1..], keep[1..]);
      forall j | 0 <= j < |rest| ensures rest[j] != s[0] {
        FilterMember(s[1..], keep[1..], rest[j]);
        var i :| 0 <= i < |s[1..]| && s[1..][i] == rest[j] && keep[1..][i];
        assert s[i + 1] == rest[j];
      }
    }
  }

  /** Being duplicate-free is having every multiplicity at most one, so it survives any
      rearrangement and any sub-multiset. */
  lemma DistinctCount<T>(s: seq<T>)
    ensures Distinct(s) <==> forall x :: multiset(s)[x] <= 1
  {
    if Distinct(s) {
      DistinctOnce(s);
    } else {
      var i, j :| 0 <= i < j < |s| && s[i] == s[j];
      Twice(s, i, j);
    }
  }

  lemma {:induction false} DistinctOnce<T>(s: seq<T>)
    requires Distinct(s)
    ensures forall x :: multiset(s)[x] <= 1
    decreases |s|
  {
    if s != [] {
      assert Distinct(s[1..]);
      DistinctOnce(s[1..]);
      assert s == [s[0]] + s[1..];
      assert s[0] !in s[1..];
    }
  }

  /** An element at two positions is counted at least twice. */
  lemma Twice<T>(s: seq<T>, i: nat, j: nat)
    requires i < j < |s| && s[i] == s[j]
    ensures multiset(s)[s[i]] >= 2
  {
    assert s == s[..j] + s[j..];
    assert s[i] in s[..j];
    assert s[j] in s[j..];
  }

  lemma DistinctSubMultiset<T>(a: seq<T>, b: seq<T>)
    requires Distinct(b) && multiset(a) <= multiset(b)
    ensures Distinct(a)
  {
    DistinctCount(a);
    DistinctCount(b);
    forall x ensures multiset(a)[x] <= 1 {
      assert multiset(a)[x] <= multiset(b)[x];
    }
  }

  lemma DistinctConcat<T>(a: seq<T>, b: seq<T>)
    requires Distinct(a + b)
    ensures Distinct(a) && Distinct(b)
    ensures forall i, j :: 0 <= i < |a| && 0 <= j < |b| ==> a[i] != b[j]
  {
    forall i, j | 0 <= i < j < |b| ensures b[i] != b[j] {
      assert (a + b)[|a| + i] == b[i] && (a + b)[|a| + j] == b[j];
    }
    forall i, j | 0 <= i < |a| && 0 <= j < |b| ensures a[i] != b[j] {
      assert (a + b)[i] == a[i] && (a + b)[|a| + j] == b[j];
    }
    assert forall i :: 0 <= i < |a| ==> (a + b)[i] == a[i];
  }

  /** Two concatenations with equally long first parts agree part by part. */
  lemma SplitEqual<T>(a: seq<T>, b: seq<T>, c: seq<T>, d: seq<T>)
    requires a + b == c + d && |a| == |c|
    ensures a == c && b == d
  {
    assert a == (a + b)[..|a|] && c == (c + d)[..|c|];
    assert b == (a + b)[|a|..] && d == (c + d)[|c|..];
  }
}
