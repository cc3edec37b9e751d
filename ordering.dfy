/**
 * The LINQ query operators the repositories and the engine use: `Where`, the stable
 * `OrderBy`/`OrderByDescending`, `Take`, `First`/`Last`, `Count` and `Sum`.
 */
module Ordering {
  import opened Wrappers

  /** `Where(p)`: the elements satisfying `p`, in their original order. */
  function Filter<T>(s: seq<T>, p: T -> bool): (r: seq<T>)
    ensures |r| <= |s|
  {
    if s == [] then []
    else
      assert s == [s[0]] + s[1..];
      (if p(s[0]) then [s[0]] else []) + Filter(s[1..], p)
  }

  /** Filtering distributes over concatenation. */
  lemma {:induction false} FilterAppend<T>(a: seq<T>, b: seq<T>, p: T -> bool)
    ensures Filter(a + b, p) == Filter(a, p) + Filter(b, p)
  {
    if a == [] {
      assert a + b == b;
    } else {
      var h := if p(a[0]) then [a[0]] else [];
      assert (a + b)[0] == a[0];
      assert (a + b)[1..] == a[1..] + b;
      FilterAppend(a[1..], b, p);
      assert Filter(a + b, p) == h + (Filter(a[1..], p) + Filter(b, p));
      assert Filter(a, p) == h + Filter(a[1..], p);
    }
  }

  /** `Count(p)`: how many elements satisfy `p`, counted from the front as the source's loops do. */
  function CountWhere<T>(s: seq<T>, p: T -> bool): (n: nat)
    ensures n <= |s|
    ensures n == 0 <==> forall i :: 0 <= i < |s| ==> !p(s[i])
  {
    if s == [] then 0 else CountWhere(s[..|s| - 1], p) + (if p(s[|s| - 1]) then 1 else 0)
  }

  /** Counting one element further. */
  lemma CountWhereSnoc<T>(s: seq<T>, x: T, p: T -> bool)
    ensures CountWhere(s + [x], p) == CountWhere(s, p) + (if p(x) then 1 else 0)
  {
    assert (s + [x])[..|s|] == s;
  }

  /** When every element satisfies `p`, all of them are counted. */
  lemma {:induction false} CountWhereAll<T>(s: seq<T>, p: T -> bool)
    requires forall i :: 0 <= i < |s| ==> p(s[i])
    ensures CountWhere(s, p) == |s|
  {
    if s != [] {
      CountWhereAll(s[..|s| - 1], p);
    }
  }

  /** Filtering keeps each satisfying element as often as it occurs and drops the others. */
  lemma {:induction false} FilterMultiplicity<T>(s: seq<T>, p: T -> bool, x: T)
    ensures multiset(Filter(s, p))[x] == if p(x) then multiset(s)[x] else 0
  {
    if s != [] {
      FilterMultiplicity(s[1..], p, x);
      var h := if p(s[0]) then [s[0]] else [];
      assert s == [s[0]] + s[1..];
      assert Filter(s, p) == h + Filter(s[1..], p);
      assert multiset(s) == multiset{s[0]} + multiset(s[1..]);
      assert multiset(Filter(s, p)) == multiset(h) + multiset(Filter(s[1..], p));
    }
  }

  /** Ascending by `key`. */
  predicate SortedBy<T>(s: seq<T>, key: T -> real)
  {
    forall i, j :: 0 <= i < j < |s| ==> key(s[i]) <= key(s[j])
  }

  /** Puts `x` in front of the first element whose key is not smaller than its own. */
  function InsertBefore<T>(x: T, s: seq<T>, key: T -> real): (r: seq<T>)
    ensures |r| == |s| + 1
  {
    if s == [] || key(x) <= key(s[0]) then [x] + s
    else [s[0]] + InsertBefore(x, s[1..], key)
  }

  /** Inserting adds exactly one occurrence of `x`. */
  lemma {:induction false} InsertBeforeMultiset<T>(x: T, s: seq<T>, key: T -> real)
    ensures multiset(InsertBefore(x, s, key)) == multiset(s) + multiset{x}
  {
    if s != [] && key(x) > key(s[0]) {
      InsertBeforeMultiset(x, s[1..], key);
      assert s == [s[0]] + s[1..];
    }
  }

  /**
   * `OrderBy(key)`: a stable ascending sort. Each element goes in front of the later elements
   * whose key is not smaller, so elements with equal keys keep their input order.
   */
  function SortBy<T>(s: seq<T>, key: T -> real): (r: seq<T>)
    ensures |r| == |s|
  {
    if s == [] then [] else InsertBefore(s[0], SortBy(s[1..], key), key)
  }

  /** The sort is a permutation. */
  lemma {:induction false} SortByMultiset<T>(s: seq<T>, key: T -> real)
    ensures multiset(SortBy(s, key)) == multiset(s)
  {
    if s != [] {
      SortByMultiset(s[1..], key);
      InsertBeforeMultiset(s[0], SortBy(s[1..], key), key);
      assert s == [s[0]] + s[1..];
    }
  }

  /** Negated key: sorting ascending by it is `OrderByDescending(key)`, still stable. */
  function Desc<T>(key: T -> real): T -> real
  {
    x => -key(x)
  }

  /**
   * `Where(p).OrderByDescending(key)`: exactly the elements satisfying `p`, each as often as
   * it occurs, largest key first.
   */
  function WhereOrderByDesc<T>(s: seq<T>, p: T -> bool, key: T -> real): (r: seq<T>)
    ensures forall i :: 0 <= i < |r| ==> r[i] in s && p(r[i])
    ensures forall i :: 0 <= i < |s| ==> multiset(r)[s[i]] == if p(s[i]) then multiset(s)[s[i]] else 0
    ensures forall i, j :: 0 <= i < j < |r| ==> key(r[j]) <= key(r[i])
  {
    WhereOrderByDescFacts(s, p, key);
    SortBy(Filter(s, p), Desc(key))
  }

  lemma WhereOrderByDescFacts<T>(s: seq<T>, p: T -> bool, key: T -> real)
    ensures var r := SortBy(Filter(s, p), Desc(key));
      && (forall i :: 0 <= i < |r| ==> r[i] in s && p(r[i]))
      && (forall i :: 0 <= i < |s| ==> multiset(r)[s[i]] == if p(s[i]) then multiset(s)[s[i]] else 0)
      && (forall i, j :: 0 <= i < j < |r| ==> key(r[j]) <= key(r[i]))
  {
    var f := Filter(s, p);
    var r := SortBy(f, Desc(key));
    SortByMultiset(f, Desc(key));
    forall i | 0 <= i < |r| ensures r[i] in s && p(r[i]) {
      assert r[i] in multiset(r);
      FilterMultiplicity(s, p, r[i]);
      assert r[i] in multiset(s);
    }
    forall i | 0 <= i < |s| ensures multiset(r)[s[i]] == if p(s[i]) then multiset(s)[s[i]] else 0 {
      FilterMultiplicity(s, p, s[i]);
    }
    SortBySorted(f, Desc(key));
    forall i, j | 0 <= i < j < |r| ensures key(r[j]) <= key(r[i]) {
      assert Desc(key)(r[i]) <= Desc(key)(r[j]);
    }
  }

  /** Every satisfying element appears in `Where(p).OrderByDescending(key)`. */
  lemma WhereOrderByDescHas<T>(s: seq<T>, p: T -> bool, key: T -> real, x: T)
    requires x in s
    ensures p(x) ==> x in WhereOrderByDesc(s, p, key)
  {
    var i :| 0 <= i < |s| && s[i] == x;
    assert p(x) ==> multiset(WhereOrderByDesc(s, p, key))[s[i]] > 0;
  }

  /** An empty `Where(p).OrderByDescending(key)` means nothing satisfies `p`. */
  lemma WhereOrderByDescEmpty<T>(s: seq<T>, p: T -> bool, key: T -> real)
    requires WhereOrderByDesc(s, p, key) == []
    ensures forall i :: 0 <= i < |s| ==> !p(s[i])
  {
    forall i | 0 <= i < |s| ensures !p(s[i]) {
      WhereOrderByDescHas(s, p, key, s[i]);
    }
  }

  /** The head of `Where(p).OrderByDescending(key)` has the largest key of the satisfying elements. */
  lemma WhereOrderByDescHead<T>(s: seq<T>, p: T -> bool, key: T -> real)
    requires WhereOrderByDesc(s, p, key) != []
    ensures forall x :: x in s && p(x) ==> key(x) <= key(WhereOrderByDesc(s, p, key)[0])
  {
    var c := WhereOrderByDesc(s, p, key);
    forall x | x in s && p(x) ensures key(x) <= key(c[0]) {
      WhereOrderByDescHas(s, p, key, x);
      var k :| 0 <= k < |c| && c[k] == x;
    }
  }

  /**
   * `Where(p).OrderByDescending(key).FirstOrDefault()`: `None` when nothing satisfies `p`,
   * otherwise a satisfying element whose key no satisfying element exceeds.
   */
  function FirstDesc<T>(s: seq<T>, p: T -> bool, key: T -> real): (r: Option<T>)
    ensures r.None? <==> forall i :: 0 <= i < |s| ==> !p(s[i])
    ensures r.Some? ==> r.value in s && p(r.value)
    ensures r.Some? ==> forall x :: x in s && p(x) ==> key(x) <= key(r.value)
  {
    var c := SortBy(Filter(s, p), Desc(key));
    assert c == WhereOrderByDesc(s, p, key);
    if c == [] then
      WhereOrderByDescEmpty(s, p, key);
      None
    else
      WhereOrderByDescHead(s, p, key);
      assert c[0] in s && p(c[0]);
      assert exists i :: 0 <= i < |s| && p(s[i]) by {
        var k :| 0 <= k < |s| && s[k] == c[0];
      }
      Some(c[0])
  }

  /**
   * Of a largest-key-first listing of the elements satisfying `p`, the first `n` hold every
   * satisfying element newer than one of them, and all of them when fewer than `n` are taken.
   */
  lemma TakeTop<T>(s: seq<T>, p: T -> bool, key: T -> real, o: seq<T>, n: int)
    requires forall i :: 0 <= i < |s| ==> multiset(o)[s[i]] == if p(s[i]) then multiset(s)[s[i]] else 0
    requires forall i, j :: 0 <= i < j < |o| ==> key(o[j]) <= key(o[i])
    ensures forall i, k ::
      (0 <= i < |s| && p(s[i]) && 0 <= k < |Take(o, n)| && key(Take(o, n)[k]) < key(s[i])) ==> s[i] in Take(o, n)
    ensures |Take(o, n)| < n ==> forall i :: 0 <= i < |s| && p(s[i]) ==> s[i] in Take(o, n)
  {
    var r := Take(o, n);
    forall i, k | 0 <= i < |s| && p(s[i]) && 0 <= k < |r| && key(r[k]) < key(s[i])
      ensures s[i] in r
    {
      assert s[i] in multiset(o);
      var m :| 0 <= m < |o| && o[m] == s[i];
      assert r[k] == o[k];
      assert r[m] == s[i];
    }
    if |r| < n {
      assert r == o;
      forall i | 0 <= i < |s| && p(s[i])
        ensures s[i] in r
      {
        assert s[i] in multiset(o);
      }
    }
  }

  /** Every key of an insertion is at least a bound that `x` and every key of `s` respect. */
  lemma {:induction false} InsertBeforeAbove<T>(x: T, s: seq<T>, key: T -> real, lo: real)
    requires lo <= key(x)
    requires forall j :: 0 <= j < |s| ==> lo <= key(s[j])
    ensures forall j :: 0 <= j < |InsertBefore(x, s, key)| ==> lo <= key(InsertBefore(x, s, key)[j])
  {
    if s != [] && key(s[0]) < key(x) {
      InsertBeforeAbove(x, s[1..], key, lo);
      var t := InsertBefore(x, s[1..], key);
      assert InsertBefore(x, s, key) == [s[0]] + t;
    }
  }

  /** Inserting into a sorted sequence keeps it sorted. */
  lemma {:induction false} InsertBeforeSorted<T>(x: T, s: seq<T>, key: T -> real)
    requires SortedBy(s, key)
    ensures SortedBy(InsertBefore(x, s, key), key)
  {
    var r := InsertBefore(x, s, key);
    if s == [] || key(x) <= key(s[0]) {
      assert r == [x] + s;
      forall i, j | 0 <= i < j < |r| ensures key(r[i]) <= key(r[j]) {
        assert r[j] == s[j - 1];
        if i > 0 {
          assert r[i] == s[i - 1];
        }
      }
    } else {
      var t := InsertBefore(x, s[1..], key);
      assert r == [s[0]] + t;
      InsertBeforeSorted(x, s[1..], key);
      InsertBeforeAbove(x, s[1..], key, key(s[0]));
      forall i, j | 0 <= i < j < |r| ensures key(r[i]) <= key(r[j]) {
        assert r[j] == t[j - 1];
        if i > 0 {
          assert r[i] == t[i - 1];
        }
      }
    }
  }

  /** `SortBy` sorts. */
  lemma {:induction false} SortBySorted<T>(s: seq<T>, key: T -> real)
    ensures SortedBy(SortBy(s, key), key)
  {
    if s != [] {
      SortBySorted(s[1..], key);
      InsertBeforeSorted(s[0], SortBy(s[1..], key), key);
    }
  }

  /** Index of the first element with the smallest key. */
  function ArgMinFirst<T>(s: seq<T>, key: T -> real): (k: nat)
    requires |s| > 0
    ensures k < |s|
    ensures forall j :: 0 <= j < |s| ==> key(s[k]) <= key(s[j])
    ensures forall j :: 0 <= j < k ==> key(s[k]) < key(s[j])
  {
    if |s| == 1 then 0
    else
      var k := ArgMinFirst(s[1..], key) + 1;
      if key(s[0]) <= key(s[k]) then 0 else k
  }

  /** Index of the last element with the largest key. */
  function ArgMaxLast<T>(s: seq<T>, key: T -> real): (k: nat)
    requires |s| > 0
    ensures k < |s|
    ensures forall j :: 0 <= j < |s| ==> key(s[j]) <= key(s[k])
    ensures forall j :: k < j < |s| ==> key(s[j]) < key(s[k])
  {
    if |s| == 1 then 0
    else
      var k := ArgMaxLast(s[1..], key) + 1;
      if key(s[0]) > key(s[k]) then 0 else k
  }

  /** The first element of a stable ascending sort is the first element with the smallest key. */
  lemma {:induction false} SortByFirst<T>(s: seq<T>, key: T -> real)
    requires |s| > 0
    ensures SortBy(s, key)[0] == s[ArgMinFirst(s, key)]
  {
    if |s| > 1 {
      SortByFirst(s[1..], key);
    }
  }

  /** An element whose key exceeds every key of the sequence is inserted at its end. */
  lemma {:induction false} InsertBeforeGreatest<T>(x: T, s: seq<T>, key: T -> real)
    requires forall j :: 0 <= j < |s| ==> key(s[j]) < key(x)
    ensures InsertBefore(x, s, key) == s + [x]
  {
    if s != [] {
      InsertBeforeGreatest(x, s[1..], key);
    }
  }

  /** An element whose key does not exceed the last key leaves the last element in place. */
  lemma {:induction false} InsertBeforeKeepsLast<T>(x: T, s: seq<T>, key: T -> real)
    requires |s| > 0 && key(x) <= key(s[|s| - 1])
    ensures InsertBefore(x, s, key)[|s|] == s[|s| - 1]
  {
    if !(key(x) <= key(s[0])) {
      InsertBeforeKeepsLast(x, s[1..], key);
    }
  }

  /** Every key of an insertion stays below a bound that `x` and every key of `s` stay below. */
  lemma {:induction false} InsertBeforeBelow<T>(x: T, s: seq<T>, key: T -> real, hi: real)
    requires key(x) < hi
    requires forall j :: 0 <= j < |s| ==> key(s[j]) < hi
    ensures forall j :: 0 <= j < |InsertBefore(x, s, key)| ==> key(InsertBefore(x, s, key)[j]) < hi
  {
    if s != [] && key(s[0]) < key(x) {
      InsertBeforeBelow(x, s[1..], key, hi);
      assert InsertBefore(x, s, key) == [s[0]] + InsertBefore(x, s[1..], key);
    }
  }

  /** Every key of a sort stays below a bound every key of the input stays below. */
  lemma {:induction false} SortByBelow<T>(s: seq<T>, key: T -> real, hi: real)
    requires forall j :: 0 <= j < |s| ==> key(s[j]) < hi
    ensures forall j :: 0 <= j < |SortBy(s, key)| ==> key(SortBy(s, key)[j]) < hi
  {
    if s != [] {
      SortByBelow(s[1..], key, hi);
      InsertBeforeBelow(s[0], SortBy(s[1..], key), key, hi);
    }
  }

  /** A head whose key exceeds every other key ends up last in the sort. */
  lemma SortByLastHead<T>(s: seq<T>, key: T -> real)
    requires |s| > 1
    requires forall j :: 1 <= j < |s| ==> key(s[j]) < key(s[0])
    ensures SortBy(s, key)[|s| - 1] == s[0]
  {
    var r := SortBy(s[1..], key);
    SortByBelow(s[1..], key, key(s[0]));
    InsertBeforeGreatest(s[0], r, key);
  }

  /** The last element of a stable ascending sort is the last element with the largest key. */
  lemma {:induction false} SortByLast<T>(s: seq<T>, key: T -> real)
    requires |s| > 0
    ensures SortBy(s, key)[|s| - 1] == s[ArgMaxLast(s, key)]
  {
    if |s| > 1 {
      var t := s[1..];
      var r := SortBy(t, key);
      SortByLast(t, key);
      var k := ArgMaxLast(t, key) + 1;
      assert s[k] == t[k - 1] == r[|r| - 1];
      if key(s[0]) > key(s[k]) {
        assert forall j :: 1 <= j < |s| ==> key(s[j]) < key(s[0]) by {
          forall j | 1 <= j < |s| ensures key(s[j]) < key(s[0]) {
            assert key(t[j - 1]) <= key(t[k - 1]);
          }
        }
        SortByLastHead(s, key);
      } else {
        InsertBeforeKeepsLast(s[0], r, key);
      }
    }
  }

  /** `Take(n)`: the first `n` elements (none for a negative count, all when fewer). */
  function Take<T>(s: seq<T>, n: int): (r: seq<T>)
    ensures |r| == if n <= 0 then 0 else if n < |s| then n else |s|
    ensures r == s[..|r|]
  {
    if n <= 0 then [] else if n < |s| then s[..n] else s
  }

  /** `Take` keeps each element at most as often as it occurs. */
  lemma TakeSub<T>(s: seq<T>, n: int)
    ensures multiset(Take(s, n)) <= multiset(s)
  {
    var r := Take(s, n);
    assert s == r + s[|r|..];
    assert multiset(s) == multiset(r) + multiset(s[|r|..]);
  }

  /** The filtered and ordered sequence keeps each element at most as often as it occurs. */
  lemma WhereOrderByDescSub<T>(s: seq<T>, p: T -> bool, key: T -> real)
    ensures multiset(WhereOrderByDesc(s, p, key)) <= multiset(s)
  {
    var r := WhereOrderByDesc(s, p, key);
    forall x | x in multiset(r)
      ensures multiset(r)[x] <= multiset(s)[x]
    {
      var i :| 0 <= i < |r| && r[i] == x;
      var j :| 0 <= j < |s| && s[j] == x;
    }
  }

  /** `Sum(f)`, accumulated from the front as the source's loops do. */
  function SumOf<T>(s: seq<T>, f: T -> real): real
  {
    if s == [] then 0.0 else SumOf(s[..|s| - 1], f) + f(s[|s| - 1])
  }

  /** Summing one element further. */
  lemma SumOfSnoc<T>(s: seq<T>, x: T, f: T -> real)
    ensures SumOf(s + [x], f) == SumOf(s, f) + f(x)
  {
    assert (s + [x])[..|s|] == s;
  }

  /** A prefix one longer is the prefix and the next element. */
  lemma PrefixSnoc<T>(s: seq<T>, i: nat)
    requires i < |s|
    ensures s[..i + 1] == s[..i] + [s[i]]
  {
  }

  /** Sums over two lists that agree element by element. */
  lemma {:induction false} SumOfPointwise<A, B>(a: seq<A>, b: seq<B>, f: A -> real, g: B -> real)
    requires |a| == |b|
    requires forall i :: 0 <= i < |a| ==> f(a[i]) == g(b[i])
    ensures SumOf(a, f) == SumOf(b, g)
  {
    if a != [] {
      SumOfPointwise(a[..|a| - 1], b[..|b| - 1], f, g);
    }
  }

  /** Summing a prefix one element further. */
  lemma SumOfPrefix<T>(s: seq<T>, i: nat, f: T -> real)
    requires i < |s|
    ensures SumOf(s[..i + 1], f) == SumOf(s[..i], f) + f(s[i])
  {
    PrefixSnoc(s, i);
    SumOfSnoc(s[..i], s[i], f);
  }

  /** The sum of a concatenation is the sum of the parts. */
  lemma {:induction false} SumOfAppend<T>(a: seq<T>, b: seq<T>, f: T -> real)
    ensures SumOf(a + b, f) == SumOf(a, f) + SumOf(b, f)
  {
    if b != [] {
      SumOfAppend(a, b[..|b| - 1], f);
      assert (a + b)[..|a + b| - 1] == a + b[..|b| - 1];
    } else {
      assert a + b == a;
    }
  }

  /** The arithmetic mean of `f` over a non-empty sequence. */
  function MeanOf<T>(s: seq<T>, f: T -> real): real
    requires |s| > 0
  {
    SumOf(s, f) / (|s| as real)
  }

  /** A mean lies between the smallest and the largest term. */
  lemma {:induction false} MeanOfBounds<T>(s: seq<T>, f: T -> real, lo: real, hi: real)
    requires |s| > 0
    requires forall i :: 0 <= i < |s| ==> lo <= f(s[i]) <= hi
    ensures lo <= MeanOf(s, f) <= hi
  {
    SumOfBounds(s, f, lo, hi);
  }

  lemma {:induction false} SumOfBounds<T>(s: seq<T>, f: T -> real, lo: real, hi: real)
    requires forall i :: 0 <= i < |s| ==> lo <= f(s[i]) <= hi
    ensures (|s| as real) * lo <= SumOf(s, f) <= (|s| as real) * hi
  {
    if s != [] {
      var n := |s| as real;
      SumOfBounds(s[..|s| - 1], f, lo, hi);
      assert (n - 1.0) * lo + lo == n * lo;
      assert (n - 1.0) * hi + hi == n * hi;
    }
  }
}
