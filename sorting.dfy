/**
 * `list.sort(key=..., reverse=True)` as used by `sort_fitness`: a stable sort into
 * descending key order. Elements are paired with their keys, so the sort itself is a pure
 * function of the pairs; `SortDescSorted`, `SortDescPermutes` and `SortDescStable` together
 * pin the result down completely.
 */
module Sorting {

  /** Puts `x` before the first element whose key does not exceed its own. */
  function Insert<T>(x: (T, real), s: seq<(T, real)>): (r: seq<(T, real)>)
    ensures |r| == |s| + 1
    decreases |s|
  {
    if s == [] then [x]
    else if s[0].1 <= x.1 then [x] + s
    else [s[0]] + Insert(x, s[1..])
  }

  /** Insertion sort from the back, which keeps equal keys in their input order. */
  function SortDesc<T>(s: seq<(T, real)>): (r: seq<(T, real)>)
    ensures |r| == |s|
    decreases |s|
  {
    if s == [] then [] else Insert(s[0], SortDesc(s[1..]))
  }

  predicate Descending<T>(s: seq<(T, real)>)
  {
    forall i, j :: 0 <= i < j < |s| ==> s[i].1 >= s[j].1
  }

  /** The elements whose key is `v`, in order. */
  function WithKey<T>(s: seq<(T, real)>, v: real): seq<(T, real)>
    decreases |s|
  {
    if s == [] then [] else (if s[0].1 == v then [s[0]] else []) + WithKey(s[1..], v)
  }

  /** The first components, in order. */
  function Firsts<T>(s: seq<(T, real)>): (r: seq<T>)
    ensures |r| == |s|
    ensures forall k :: 0 <= k < |s| ==> r[k] == s[k].0
  {
    seq(|s|, k requires 0 <= k < |s| => s[k].0)
  }

  lemma {:induction false} InsertPermutes<T>(x: (T, real), s: seq<(T, real)>)
    ensures multiset(Insert(x, s)) == multiset([x] + s)
    decreases |s|
  {
    if s != [] && s[0].1 > x.1 {
      InsertPermutes(x, s[1..]);
      assert s == [s[0]] + s[1..];
    }
  }

  /** Every key of `r` is at most `k` when `r` rearranges `[x] + s` and no key there exceeds `k`. */
  lemma BoundedKeys<T>(r: seq<(T, real)>, x: (T, real), s: seq<(T, real)>, k: real)
    requires multiset(r) == multiset([x] + s)
    requires x.1 <= k && forall m :: 0 <= m < |s| ==> s[m].1 <= k
    ensures forall m :: 0 <= m < |r| ==> r[m].1 <= k
  {
    forall m | 0 <= m < |r| ensures r[m].1 <= k {
      assert r[m] in multiset([x] + s);
      assert r[m] in [x] + s;
      if r[m] != x {
        assert r[m] in s;
      }
    }
  }

  lemma {:induction false} InsertSorted<T>(x: (T, real), s: seq<(T, real)>)
    requires Descending(s)
    ensures Descending(Insert(x, s))
    decreases |s|
  {
    if s != [] && s[0].1 > x.1 {
      InsertSorted(x, s[1..]);
      var r := Insert(x, s[1..]);
      InsertPermutes(x, s[1..]);
      BoundedKeys(r, x, s[1..], s[0].1);
      assert Insert(x, s) == [s[0]] + r;
    }
  }

  /** The result is in descending key order. */
  lemma {:induction false} SortDescSorted<T>(s: seq<(T, real)>)
    ensures Descending(SortDesc(s))
    decreases |s|
  {
    if s != [] {
      SortDescSorted(s[1..]);
      InsertSorted(s[0], SortDesc(s[1..]));
    }
  }

  /** The result is a permutation of the input. */
  lemma {:induction false} SortDescPermutes<T>(s: seq<(T, real)>)
    ensures multiset(SortDesc(s)) == multiset(s)
    decreases |s|
  {
    if s != [] {
      SortDescPermutes(s[1..]);
      InsertPermutes(s[0], SortDesc(s[1..]));
      assert s == [s[0]] + s[1..];
    }
  }

  lemma {:induction false} InsertStable<T>(x: (T, real), s: seq<(T, real)>, v: real)
    ensures WithKey(Insert(x, s), v) == WithKey([x] + s, v)
    decreases |s|
  {
    if s == [] {
    } else if s[0].1 <= x.1 {
    } else {
      InsertStable(x, s[1..], v);
      assert ([s[0]] + Insert(x, s[1..]))[1..] == Insert(x, s[1..]);
      assert ([x] + s)[1..] == s;
      assert ([x] + s[1..])[1..] == s[1..];
    }
  }

  /** Stability: elements with equal keys come out in the order they went in. */
  lemma {:induction false} SortDescStable<T>(s: seq<(T, real)>, v: real)
    ensures WithKey(SortDesc(s), v) == WithKey(s, v)
    decreases |s|
  {
    if s != [] {
      SortDescStable(s[1..], v);
      InsertStable(s[0], SortDesc(s[1..]), v);
      assert ([s[0]] + SortDesc(s[1..]))[1..] == SortDesc(s[1..]);
    }
  }

  lemma {:induction false} FirstsInsert<T>(x: (T, real), s: seq<(T, real)>)
    ensures multiset(Firsts(Insert(x, s))) == multiset([x.0] + Firsts(s))
    decreases |s|
  {
    if s == [] {
      assert Firsts([x]) == [x.0];
    } else if s[0].1 <= x.1 {
      assert Firsts([x] + s) == [x.0] + Firsts(s);
    } else {
      FirstsInsert(x, s[1..]);
      assert Firsts([s[0]] + Insert(x, s[1..])) == [s[0].0] + Firsts(Insert(x, s[1..]));
      assert Firsts(s) == [s[0].0] + Firsts(s[1..]);
    }
  }

  /** Sorting rearranges the elements themselves, not only the pairs. */
  lemma {:induction false} SortDescFirsts<T>(s: seq<(T, real)>)
    ensures multiset(Firsts(SortDesc(s))) == multiset(Firsts(s))
    decreases |s|
  {
    if s != [] {
      SortDescFirsts(s[1..]);
      FirstsInsert(s[0], SortDesc(s[1..]));
      assert Firsts(s) == [s[0].0] + Firsts(s[1..]);
    }
  }

  /** Applies `f` to the elements, keeping the keys. */
  function MapFirst<T, U>(f: T -> U, s: seq<(T, real)>): (r: seq<(U, real)>)
    ensures |r| == |s| && forall k :: 0 <= k < |s| ==> r[k] == (f(s[k].0), s[k].1)
  {
    seq(|s|, k requires 0 <= k < |s| => (f(s[k].0), s[k].1))
  }

  lemma {:induction false} InsertMap<T, U>(f: T -> U, x: (T, real), s: seq<(T, real)>)
    ensures Insert((f(x.0), x.1), MapFirst(f, s)) == MapFirst(f, Insert(x, s))
    decreases |s|
  {
    if s != [] && s[0].1 > x.1 {
      InsertMap(f, x, s[1..]);
      assert MapFirst(f, s)[1..] == MapFirst(f, s[1..]);
    } else if s != [] {
      assert MapFirst(f, [x] + s) == [(f(x.0), x.1)] + MapFirst(f, s);
    }
  }

  /** The sort only looks at the keys: relabelling the elements commutes with it. */
  lemma {:induction false} SortDescMap<T, U>(f: T -> U, s: seq<(T, real)>)
    ensures SortDesc(MapFirst(f, s)) == MapFirst(f, SortDesc(s))
    decreases |s|
  {
    if s != [] {
      SortDescMap(f, s[1..]);
      assert MapFirst(f, s)[1..] == MapFirst(f, s[1..]);
      InsertMap(f, s[0], SortDesc(s[1..]));
    }
  }
}
