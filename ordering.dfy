/**
 * Orders and sorting shared by the whole model.
 *
 * String comparison in the source uses `localeCompare`; the model replaces it by
 * code-unit lexicographic order, a strict total order. Every lemma about a sort
 * only relies on the order facts proved here, so any other strict total order on
 * strings would do.
 *
 * `Array.prototype.sort` is stable; `Sort` below is a stable insertion sort, and a
 * stable sort's result is fully determined by its comparator and its input.
 */
module Ordering {

  /** Code-unit lexicographic strict order on strings. */
  predicate StrLt(a: string, b: string)
  {
    |b| > 0 && (|a| == 0 || a[0] < b[0] || (a[0] == b[0] && StrLt(a[1..], b[1..])))
  }

  lemma {:induction false} StrLtIrreflexive(a: string)
    ensures !StrLt(a, a)
  {
    if |a| > 0 {
      StrLtIrreflexive(a[1..]);
    }
  }

  lemma {:induction false} StrLtAsymmetric(a: string, b: string)
    ensures StrLt(a, b) ==> !StrLt(b, a)
  {
    if |a| > 0 && |b| > 0 && a[0] == b[0] {
      StrLtAsymmetric(a[1..], b[1..]);
    }
  }

  lemma {:induction false} StrLtTransitive(a: string, b: string, c: string)
    ensures StrLt(a, b) && StrLt(b, c) ==> StrLt(a, c)
  {
    if |a| > 0 && |b| > 0 && |c| > 0 && a[0] == b[0] == c[0] {
      StrLtTransitive(a[1..], b[1..], c[1..]);
    }
  }

  lemma {:induction false} StrLtTotal(a: string, b: string)
    ensures a == b || StrLt(a, b) || StrLt(b, a)
  {
    if |a| > 0 && |b| > 0 && a[0] == b[0] {
      StrLtTotal(a[1..], b[1..]);
      if a[1..] == b[1..] {
        assert a == [a[0]] + a[1..] && b == [b[0]] + b[1..];
      }
    }
  }

  /** Negative transitivity of StrLt: if a < c then every b is above a or below c. */
  lemma StrLtNegTransitive(a: string, b: string, c: string)
    ensures StrLt(a, c) ==> StrLt(a, b) || StrLt(b, c)
  {
    StrLtTotal(a, b);
    StrLtTotal(b, c);
    StrLtAsymmetric(a, c);
    StrLtTransitive(b, a, c);
    StrLtTransitive(a, c, b);
    StrLtTransitive(c, b, a);
    StrLtIrreflexive(a);
  }

  /** `lt` is a strict weak order: asymmetric and negatively transitive. */
  ghost predicate StrictWeakOrder<T(!new)>(lt: (T, T) -> bool)
  {
    && (forall x, y :: lt(x, y) ==> !lt(y, x))
    && (forall x, y, z :: lt(x, z) ==> lt(x, y) || lt(y, z))
  }

  lemma StrLtIsStrictWeakOrder()
    ensures StrictWeakOrder(StrLt)
  {
    forall x: string, y: string ensures StrLt(x, y) ==> !StrLt(y, x) {
      StrLtAsymmetric(x, y);
    }
    forall x: string, y: string, z: string ensures StrLt(x, z) ==> StrLt(x, y) || StrLt(y, z) {
      StrLtNegTransitive(x, y, z);
    }
  }

  /** No element is strictly before an element to its left. */
  predicate Sorted<T>(s: seq<T>, lt: (T, T) -> bool)
  {
    forall i, j :: 0 <= i < j < |s| ==> !lt(s[j], s[i])
  }

  /** Inserts x after every element strictly before it and before the first one that is not. */
  function Insert<T>(x: T, s: seq<T>, lt: (T, T) -> bool): (r: seq<T>)
    ensures |r| == |s| + 1
    ensures multiset(r) == multiset(s) + multiset{x}
  {
    if s == [] || !lt(s[0], x) then [x] + s
    else
      assert s == [s[0]] + s[1..];
      [s[0]] + Insert(x, s[1..], lt)
  }

  /** Stable insertion sort. */
  function Sort<T>(s: seq<T>, lt: (T, T) -> bool): (r: seq<T>)
    ensures |r| == |s|
    ensures multiset(r) == multiset(s)
  {
    if s == [] then []
    else
      assert s == [s[0]] + s[1..];
      Insert(s[0], Sort(s[1..], lt), lt)
  }

  lemma {:induction false} InsertSorted<T(!new)>(x: T, s: seq<T>, lt: (T, T) -> bool)
    requires StrictWeakOrder(lt)
    requires Sorted(s, lt)
    ensures Sorted(Insert(x, s, lt), lt)
  {
    if s == [] || !lt(s[0], x) {
      var r := [x] + s;
      forall i, j | 0 <= i < j < |r| ensures !lt(r[j], r[i]) {
        if i == 0 {
          // r[j] == s[j-1] and !lt(s[j-1], s[0]), !lt(s[0], x)
          if j > 1 {
            assert !lt(s[j - 1], s[0]);
          }
        }
      }
    } else {
      InsertSorted(x, s[1..], lt);
      var t := Insert(x, s[1..], lt);
      var r := [s[0]] + t;
      assert multiset(t) == multiset(s[1..]) + multiset{x};
      forall i, j | 0 <= i < j < |r| ensures !lt(r[j], r[i]) {
        if i == 0 {
          var e := r[j];
          assert e in multiset(t);
          if e == x {
          } else {
            assert e in multiset(s[1..]);
            var k :| 0 <= k < |s[1..]| && s[1..][k] == e;
            assert s[k + 1] == e;
          }
        }
      }
    }
  }

  lemma {:induction false} SortSorted<T(!new)>(s: seq<T>, lt: (T, T) -> bool)
    requires StrictWeakOrder(lt)
    ensures Sorted(Sort(s, lt), lt)
  {
    if s != [] {
      SortSorted(s[1..], lt);
      InsertSorted(s[0], Sort(s[1..], lt), lt);
    }
  }

  /** Every element of a sorted copy is an element of the original. */
  lemma SortElement<T>(s: seq<T>, lt: (T, T) -> bool, i: nat)
    requires i < |Sort(s, lt)|
    ensures exists k :: 0 <= k < |s| && s[k] == Sort(s, lt)[i]
  {
    assert Sort(s, lt)[i] in multiset(Sort(s, lt));
    assert Sort(s, lt)[i] in multiset(s);
  }

  /** `lt` separates every two distinct values of the multiset m. */
  ghost predicate TotalOn<T>(m: multiset<T>, lt: (T, T) -> bool)
  {
    forall x, y :: x in m && y in m && x != y ==> lt(x, y) || lt(y, x)
  }

  /** `lt` separates the distinct elements of s when it separates them position by position. */
  lemma TotalOnFromSeq<T>(s: seq<T>, lt: (T, T) -> bool)
    requires forall i, j :: 0 <= i < |s| && 0 <= j < |s| && s[i] != s[j] ==> lt(s[i], s[j]) || lt(s[j], s[i])
    ensures TotalOn(multiset(s), lt)
  {
    forall x, y | x in multiset(s) && y in multiset(s) && x != y ensures lt(x, y) || lt(y, x) {
      assert x in s && y in s;
      var i :| 0 <= i < |s| && s[i] == x;
      var j :| 0 <= j < |s| && s[j] == y;
    }
  }

  /** Two sorted arrangements of the same multiset start with the same element. */
  lemma SortedHeads<T(!new)>(a: seq<T>, b: seq<T>, lt: (T, T) -> bool)
    requires StrictWeakOrder(lt)
    requires Sorted(a, lt) && Sorted(b, lt)
    requires multiset(a) == multiset(b)
    requires TotalOn(multiset(a), lt)
    requires a != []
    ensures b != [] && a[0] == b[0]
  {
    assert a[0] in multiset(b);
    var j :| 0 <= j < |b| && b[j] == a[0];
    assert b[0] in multiset(a);
    var i :| 0 <= i < |a| && a[i] == b[0];
    assert !lt(a[0], b[0]) by { if j > 0 { assert !lt(b[j], b[0]); } }
    assert !lt(b[0], a[0]) by { if i > 0 { assert !lt(a[i], a[0]); } }
  }

  lemma SortedTail<T>(a: seq<T>, lt: (T, T) -> bool)
    requires Sorted(a, lt) && a != []
    ensures Sorted(a[1..], lt)
  {
    forall i, j | 0 <= i < j < |a[1..]| ensures !lt(a[1..][j], a[1..][i]) {
      assert a[1..][j] == a[j + 1] && a[1..][i] == a[i + 1];
    }
  }

  lemma TailsMultiset<T>(a: seq<T>, b: seq<T>)
    requires a != [] && b != [] && a[0] == b[0]
    requires multiset(a) == multiset(b)
    ensures multiset(a[1..]) == multiset(b[1..])
    ensures multiset(a[1..]) <= multiset(a)
  {
    assert a == [a[0]] + a[1..];
    assert b == [b[0]] + b[1..];
    assert multiset(a) == multiset{a[0]} + multiset(a[1..]);
    assert multiset(b) == multiset{a[0]} + multiset(b[1..]);
    assert multiset(a[1..]) == multiset(a) - multiset{a[0]};
  }

  lemma TotalOnSub<T>(m: multiset<T>, n: multiset<T>, lt: (T, T) -> bool)
    requires TotalOn(n, lt) && m <= n
    ensures TotalOn(m, lt)
  {
  }

  /** Two sorted arrangements of the same multiset agree when `lt` is total on it. */
  lemma {:induction false} SortedUnique<T(!new)>(a: seq<T>, b: seq<T>, lt: (T, T) -> bool)
    requires StrictWeakOrder(lt)
    requires Sorted(a, lt) && Sorted(b, lt)
    requires multiset(a) == multiset(b)
    requires TotalOn(multiset(a), lt)
    ensures a == b
  {
    if a == [] {
      assert |multiset(b)| == 0;
    } else {
      SortedHeads(a, b, lt);
      TailsMultiset(a, b);
      SortedTail(a, lt);
      SortedTail(b, lt);
      TotalOnSub(multiset(a[1..]), multiset(a), lt);
      SortedUnique(a[1..], b[1..], lt);
      assert a == [a[0]] + a[1..] && b == [b[0]] + b[1..];
    }
  }

  /** Sorting two arrangements of the same multiset gives the same result when `lt` is total on it. */
  lemma SortPermutationInvariant<T(!new)>(a: seq<T>, b: seq<T>, lt: (T, T) -> bool)
    requires StrictWeakOrder(lt)
    requires multiset(a) == multiset(b)
    requires TotalOn(multiset(a), lt)
    ensures Sort(a, lt) == Sort(b, lt)
  {
    SortSorted(a, lt);
    SortSorted(b, lt);
    SortedUnique(Sort(a, lt), Sort(b, lt), lt);
  }

  /** The first n elements (JavaScript's `slice(0, n)`). */
  function Take<T>(s: seq<T>, n: nat): (r: seq<T>)
    ensures |r| <= n && |r| <= |s|
    ensures |r| == if |s| < n then |s| else n
    ensures forall i :: 0 <= i < |r| ==> r[i] == s[i]
  {
    if |s| <= n then s else s[..n]
  }

  /** After sorting and keeping the first n, nothing left out is strictly before anything kept. */
  lemma SortedTakeIsTop<T(!new)>(s: seq<T>, lt: (T, T) -> bool, n: nat)
    requires Sorted(s, lt)
    ensures Sorted(Take(s, n), lt)
    ensures forall i, j :: 0 <= i < |Take(s, n)| <= j < |s| ==> !lt(s[j], Take(s, n)[i])
  {
  }

  // ----- Filtering and mapping respect permutations -----

  /** `s.filter(p)`. */
  function Filter<T(!new)>(s: seq<T>, p: T -> bool): (r: seq<T>)
    ensures |r| <= |s|
    ensures forall x :: x in r <==> x in s && p(x)
    ensures forall i :: 0 <= i < |r| ==> p(r[i])
  {
    if s == [] then []
    else
      assert forall x :: x in s <==> x == s[0] || x in s[1..];
      (if p(s[0]) then [s[0]] else []) + Filter(s[1..], p)
  }

  lemma {:induction false} FilterConcat<T(!new)>(a: seq<T>, b: seq<T>, p: T -> bool)
    ensures Filter(a + b, p) == Filter(a, p) + Filter(b, p)
  {
    if a == [] {
      assert a + b == b;
    } else {
      assert (a + b)[0] == a[0];
      assert (a + b)[1..] == a[1..] + b;
      FilterConcat(a[1..], b, p);
    }
  }

  lemma {:induction false} FilterCount<T(!new)>(s: seq<T>, p: T -> bool, x: T)
    ensures multiset(Filter(s, p))[x] == if p(x) then multiset(s)[x] else 0
  {
    if s != [] {
      FilterCount(s[1..], p, x);
      assert s == [s[0]] + s[1..];
      var h := if p(s[0]) then [s[0]] else [];
      assert Filter(s, p) == h + Filter(s[1..], p);
      assert multiset(Filter(s, p)) == multiset(h) + multiset(Filter(s[1..], p));
      assert multiset(s) == multiset{s[0]} + multiset(s[1..]);
    }
  }

  lemma FilterPermutation<T(!new)>(a: seq<T>, b: seq<T>, p: T -> bool)
    requires multiset(a) == multiset(b)
    ensures multiset(Filter(a, p)) == multiset(Filter(b, p))
  {
    forall x ensures multiset(Filter(a, p))[x] == multiset(Filter(b, p))[x] {
      FilterCount(a, p, x);
      FilterCount(b, p, x);
    }
  }

  /** `s.map(f)`. */
  function MapSeq<T, U>(s: seq<T>, f: T -> U): (r: seq<U>)
    ensures |r| == |s|
    ensures forall i :: 0 <= i < |s| ==> r[i] == f(s[i])
  {
    if s == [] then [] else [f(s[0])] + MapSeq(s[1..], f)
  }

  lemma {:induction false} MapConcat<T, U>(u: seq<T>, v: seq<T>, f: T -> U)
    ensures MapSeq(u + v, f) == MapSeq(u, f) + MapSeq(v, f)
  {
    if u == [] {
      assert u + v == v;
    } else {
      assert (u + v)[0] == u[0];
      assert (u + v)[1..] == u[1..] + v;
      MapConcat(u[1..], v, f);
    }
  }

  lemma RemoveAtMultiset<T>(b: seq<T>, k: nat)
    requires k < |b|
    ensures multiset(b[..k] + b[k + 1..]) == multiset(b) - multiset{b[k]}
  {
    assert b == b[..k] + [b[k]] + b[k + 1..];
  }

  lemma SplitAt<T>(b: seq<T>, k: nat)
    requires k < |b|
    ensures b == b[..k] + ([b[k]] + b[k + 1..])
  {
  }

  /** Mapping a sequence with one element taken out loses exactly that element's image. */
  lemma MapRemoveAt<T, U>(b: seq<T>, k: nat, f: T -> U)
    requires k < |b|
    ensures multiset(MapSeq(b, f)) == multiset(MapSeq(b[..k] + b[k + 1..], f)) + multiset{f(b[k])}
  {
    SplitAt(b, k);
    MapConcat(b[..k], [b[k]] + b[k + 1..], f);
    MapConcat([b[k]], b[k + 1..], f);
    MapConcat(b[..k], b[k + 1..], f);
  }

  lemma PermutationRest<T>(a: seq<T>, b: seq<T>, k: nat)
    requires multiset(a) == multiset(b)
    requires a != [] && k < |b| && b[k] == a[0]
    ensures multiset(a[1..]) == multiset(b[..k] + b[k + 1..])
  {
    RemoveAtMultiset(b, k);
    assert a == [a[0]] + a[1..];
  }

  lemma {:induction false} MapPermutation<T, U>(a: seq<T>, b: seq<T>, f: T -> U)
    requires multiset(a) == multiset(b)
    ensures multiset(MapSeq(a, f)) == multiset(MapSeq(b, f))
    decreases |a|
  {
    if a == [] {
      assert |multiset(b)| == 0;
    } else {
      assert a[0] in multiset(b);
      var k :| 0 <= k < |b| && b[k] == a[0];
      PermutationRest(a, b, k);
      MapPermutation(a[1..], b[..k] + b[k + 1..], f);
      MapRemoveAt(b, k, f);
    }
  }

  /** Sorting by a key and then projecting the keys is sorting the keys. */
  lemma {:induction false} InsertMapCommutes<T, K>(x: T, s: seq<T>, ltT: (T, T) -> bool, key: T -> K, lt: (K, K) -> bool)
    requires forall a, b :: ltT(a, b) == lt(key(a), key(b))
    ensures MapSeq(Insert(x, s, ltT), key) == Insert(key(x), MapSeq(s, key), lt)
  {
    if s != [] && ltT(s[0], x) {
      InsertMapCommutes(x, s[1..], ltT, key, lt);
      assert MapSeq(s, key)[1..] == MapSeq(s[1..], key);
    }
  }

  lemma {:induction false} SortMapCommutes<T, K>(s: seq<T>, ltT: (T, T) -> bool, key: T -> K, lt: (K, K) -> bool)
    requires forall a, b :: ltT(a, b) == lt(key(a), key(b))
    ensures MapSeq(Sort(s, ltT), key) == Sort(MapSeq(s, key), lt)
  {
    if s != [] {
      SortMapCommutes(s[1..], ltT, key, lt);
      InsertMapCommutes(s[0], Sort(s[1..], ltT), ltT, key, lt);
      assert MapSeq(s, key)[1..] == MapSeq(s[1..], key);
    }
  }

  /** Dropping elements keeps a sorted sequence sorted. */
  lemma {:induction false} FilterSorted<T(!new)>(s: seq<T>, p: T -> bool, lt: (T, T) -> bool)
    requires Sorted(s, lt)
    ensures Sorted(Filter(s, p), lt)
  {
    if s != [] {
      SortedTail(s, lt);
      FilterSorted(s[1..], p, lt);
      var rest := Filter(s[1..], p);
      if p(s[0]) {
        forall y | y in rest ensures !lt(y, s[0]) {
          var k :| 0 <= k < |s[1..]| && s[1..][k] == y;
          assert s[k + 1] == y;
        }
        ConsSorted(s[0], rest, lt);
        assert Filter(s, p) == [s[0]] + rest;
      } else {
        assert Filter(s, p) == rest;
      }
    }
  }

  /** An element no later element precedes can be put in front of a sorted sequence. */
  lemma ConsSorted<T>(x: T, rest: seq<T>, lt: (T, T) -> bool)
    requires Sorted(rest, lt)
    requires forall y :: y in rest ==> !lt(y, x)
    ensures Sorted([x] + rest, lt)
  {
    var r := [x] + rest;
    forall i, j | 0 <= i < j < |r| ensures !lt(r[j], r[i]) {
      assert r[j] == rest[j - 1];
      if i > 0 {
        assert r[i] == rest[i - 1];
      }
    }
  }


  lemma {:induction false} FilterIdempotent<T(!new)>(s: seq<T>, p: T -> bool)
    ensures Filter(Filter(s, p), p) == Filter(s, p)
  {
    if s != [] {
      FilterIdempotent(s[1..], p);
      FilterConcat(if p(s[0]) then [s[0]] else [], Filter(s[1..], p), p);
    }
  }

  lemma SortSingleton<T>(x: T, lt: (T, T) -> bool)
    ensures Sort([x], lt) == [x]
  {
    assert [x][1..] == [];
  }
}
