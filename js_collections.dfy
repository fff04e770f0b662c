/**
 * JavaScript collections the source updates in loops, as values.
 *
 * A `Map` from a key to a running amount iterates in insertion order, so it is an
 * association list (`seq<Entry>`) whose `Bump` adds to an existing entry or appends
 * a new one; the name is the one recorded when the key was first inserted (the
 * `friendlyName` kept by `map.get(k) || { friendlyName, ... }`). `[...new Set(xs)]`
 * is `Dedup`: first occurrences, in order. A table sorted by decreasing amount and
 * cut to its first n entries is `Top`.
 */
module JsCollections {
  import opened Ordering

  datatype Entry = Entry(key: string, name: string, amount: int)

  function Keys(t: seq<Entry>): (r: seq<string>)
    ensures |r| == |t|
    ensures forall i :: 0 <= i < |t| ==> r[i] == t[i].key
  {
    if t == [] then [] else [t[0].key] + Keys(t[1..])
  }

  predicate HasKey(t: seq<Entry>, k: string)
  {
    k in Keys(t)
  }

  predicate DistinctKeys(t: seq<Entry>)
  {
    forall i, j :: 0 <= i < j < |t| ==> t[i].key != t[j].key
  }

  /** `map.get(k) || 0`: the amount of the first entry with key k, 0 when there is none. */
  function Get(t: seq<Entry>, k: string): (r: int)
    ensures !HasKey(t, k) ==> r == 0
  {
    if t == [] then 0
    else if t[0].key == k then t[0].amount
    else Get(t[1..], k)
  }

  lemma {:induction false} GetFirst(t: seq<Entry>, k: string, i: nat)
    requires i < |t| && t[i].key == k
    requires forall j :: 0 <= j < i ==> t[j].key != k
    ensures Get(t, k) == t[i].amount
  {
    if i > 0 {
      GetFirst(t[1..], k, i - 1);
    }
  }

  /** `map.set(k, (map.get(k) || 0) + d)`, keeping the name of an existing entry. */
  function Bump(t: seq<Entry>, k: string, name: string, d: int): (r: seq<Entry>)
    ensures HasKey(r, k)
  {
    if t == [] then [Entry(k, name, d)]
    else if t[0].key == k then [t[0].(amount := t[0].amount + d)] + t[1..]
    else [t[0]] + Bump(t[1..], k, name, d)
  }

  lemma {:induction false} BumpGet(t: seq<Entry>, k: string, name: string, d: int, k': string)
    ensures Get(Bump(t, k, name, d), k') == Get(t, k') + (if k' == k then d else 0)
  {
    if t != [] && t[0].key != k {
      BumpGet(t[1..], k, name, d, k');
    }
  }

  lemma {:induction false} BumpKeys(t: seq<Entry>, k: string, name: string, d: int)
    ensures Keys(Bump(t, k, name, d)) == if HasKey(t, k) then Keys(t) else Keys(t) + [k]
  {
    if t != [] && t[0].key != k {
      BumpKeys(t[1..], k, name, d);
      assert Keys(t) == [t[0].key] + Keys(t[1..]);
    }
  }

  lemma BumpDistinct(t: seq<Entry>, k: string, name: string, d: int)
    requires DistinctKeys(t)
    ensures DistinctKeys(Bump(t, k, name, d))
  {
    var r := Bump(t, k, name, d);
    BumpKeys(t, k, name, d);
    assert forall i :: 0 <= i < |r| ==> r[i].key == Keys(r)[i];
    assert forall i :: 0 <= i < |t| ==> t[i].key == Keys(t)[i];
  }

  /** Sum of the amounts (`Array.from(map.values()).reduce((s, e) => s + e.amount, 0)`). */
  function Sum(t: seq<Entry>): int
  {
    if t == [] then 0 else t[0].amount + Sum(t[1..])
  }

  lemma {:induction false} BumpSum(t: seq<Entry>, k: string, name: string, d: int)
    ensures Sum(Bump(t, k, name, d)) == Sum(t) + d
  {
    if t != [] && t[0].key != k {
      BumpSum(t[1..], k, name, d);
    }
  }

  /** Every amount is at least 0. */
  predicate NonNegative(t: seq<Entry>)
  {
    forall i :: 0 <= i < |t| ==> t[i].amount >= 0
  }

  /** `[...new Set(xs)]`: the first occurrence of every element, in order. */
  function Dedup(xs: seq<string>): (r: seq<string>)
    ensures forall i, j :: 0 <= i < j < |r| ==> r[i] != r[j]
    ensures forall x :: x in r <==> x in xs
    ensures |r| <= |xs|
  {
    if xs == [] then []
    else
      var p := Dedup(xs[..|xs| - 1]);
      assert forall x :: x in xs <==> x in xs[..|xs| - 1] || x == xs[|xs| - 1] by {
        assert xs == xs[..|xs| - 1] + [xs[|xs| - 1]];
      }
      if xs[|xs| - 1] in p then p else p + [xs[|xs| - 1]]
  }

  /** Deduplicating one more element keeps the list, and appends the element when it is new. */
  lemma DedupSnoc(xs: seq<string>, x: string)
    ensures Dedup(xs + [x]) == if x in Dedup(xs) then Dedup(xs) else Dedup(xs) + [x]
  {
    assert (xs + [x])[..|xs|] == xs;
  }

  /** Number of occurrences of x in xs. */
  function Count(xs: seq<string>, x: string): nat
  {
    if xs == [] then 0 else (if xs[0] == x then 1 else 0) + Count(xs[1..], x)
  }

  /** `sort((a, b) => b.amount - a.amount)`: a larger amount comes first. */
  predicate LongerThan(a: Entry, b: Entry)
  {
    a.amount > b.amount
  }

  lemma LongerThanIsStrictWeakOrder()
    ensures StrictWeakOrder(LongerThan)
  {
  }

  /** `.sort((a, b) => b.amount - a.amount).slice(0, n)`; the sort is stable, so ties keep table order. */
  function Top(t: seq<Entry>, n: nat): seq<Entry>
  {
    Take(Sort(t, LongerThan), n)
  }

  /** The first n entries of the table, or all of it when shorter, largest amount first. */
  lemma TopShape(t: seq<Entry>, n: nat)
    ensures |Top(t, n)| == if |t| < n then |t| else n
    ensures forall i, j :: 0 <= i < j < |Top(t, n)| ==> Top(t, n)[i].amount >= Top(t, n)[j].amount
    ensures forall i :: 0 <= i < |Top(t, n)| ==> Top(t, n)[i] in t
  {
    var s := Sort(t, LongerThan);
    LongerThanIsStrictWeakOrder();
    SortSorted(t, LongerThan);
    SortedTakeIsTop(s, LongerThan, n);
    assert |s| == |t| by {
      assert |multiset(s)| == |multiset(t)|;
    }
    forall i | 0 <= i < |Top(t, n)| ensures Top(t, n)[i] in t {
      assert Top(t, n)[i] in multiset(s);
    }
  }

  /** An entry of the table that is not kept has no larger amount than any kept one. */
  lemma TopIsTop(t: seq<Entry>, n: nat, e: Entry)
    requires e in t
    requires forall i :: 0 <= i < |Top(t, n)| ==> Top(t, n)[i] != e
    ensures forall i :: 0 <= i < |Top(t, n)| ==> e.amount <= Top(t, n)[i].amount
  {
    var s := Sort(t, LongerThan);
    var k := Top(t, n);
    LongerThanIsStrictWeakOrder();
    SortSorted(t, LongerThan);
    SortedTakeIsTop(s, LongerThan, n);
    assert e in multiset(s);
    var j :| 0 <= j < |s| && s[j] == e;
    assert j >= |k| by {
      assert forall i :: 0 <= i < |k| ==> k[i] == s[i];
    }
  }

  /** No string occurs twice. */
  predicate Distinct(xs: seq<string>)
  {
    forall i, j :: 0 <= i < j < |xs| ==> xs[i] != xs[j]
  }

  /** Two duplicate-free lists with nothing in common concatenate to a duplicate-free list. */
  lemma DistinctParts(a: seq<string>, b: seq<string>)
    requires Distinct(a) && Distinct(b)
    requires forall x :: x in a ==> x !in b
    ensures Distinct(a + b)
  {
    forall i, j | 0 <= i < j < |a + b| ensures (a + b)[i] != (a + b)[j] {
      if j < |a| {
        assert (a + b)[i] == a[i] && (a + b)[j] == a[j];
      } else if i >= |a| {
        assert (a + b)[i] == b[i - |a|] && (a + b)[j] == b[j - |a|];
      } else {
        assert (a + b)[i] == a[i] && (a + b)[j] == b[j - |a|];
        assert a[i] in a;
      }
    }
  }
}
