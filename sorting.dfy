/**
 * `Array.prototype.sort` with the engine's numeric comparators
 * `(a, b) => key(b) - key(a)` (descending) and `(a, b) => key(a) - key(b)`
 * (ascending). The sort is stable, so it is modelled as an insertion sort
 * that puts an element before the first one it need not follow.
 */
module Sorting {
  import opened Sequences

  /** `x` may stand before `y` in the result. */
  predicate Before<T>(key: T -> real, desc: bool, x: T, y: T) {
    if desc then key(x) >= key(y) else key(x) <= key(y)
  }

  predicate Ordered<T>(s: seq<T>, key: T -> real, desc: bool) {
    forall i, j | 0 <= i < j < |s| :: Before(key, desc, s[i], s[j])
  }

  /** Puts `x` in front of the first element it may stand before. */
  function Insert<T>(x: T, s: seq<T>, key: T -> real, desc: bool): (r: seq<T>)
    ensures multiset(r) == multiset(s) + multiset{x}
    ensures |r| == |s| + 1
    decreases |s|
  {
    if |s| == 0 then [x]
    else if Before(key, desc, x, s[0]) then
      assert s == [s[0]] + s[1..];
      [x] + s
    else
      assert s == [s[0]] + s[1..];
      [s[0]] + Insert(x, s[1..], key, desc)
  }

  lemma {:induction false} InsertOrdered<T>(x: T, s: seq<T>, key: T -> real, desc: bool)
    requires Ordered(s, key, desc)
    ensures Ordered(Insert(x, s, key, desc), key, desc)
    decreases |s|
  {
    if |s| > 0 && !Before(key, desc, x, s[0]) {
      var t := Insert(x, s[1..], key, desc);
      InsertOrdered(x, s[1..], key, desc);
      forall j | 0 <= j < |t| ensures Before(key, desc, s[0], t[j]) {
        assert t[j] in multiset(s[1..]) + multiset{x};
        if t[j] != x {
          assert t[j] in s[1..];
        }
      }
    }
  }

  /** The result of `[...s].sort(comparator)`. */
  function StableSort<T>(s: seq<T>, key: T -> real, desc: bool): (r: seq<T>)
    ensures multiset(r) == multiset(s)
    ensures |r| == |s|
    ensures Ordered(r, key, desc)
    decreases |s|
  {
    if |s| == 0 then []
    else
      assert s == [s[0]] + s[1..];
      var t := StableSort(s[1..], key, desc);
      InsertOrdered(s[0], t, key, desc);
      Insert(s[0], t, key, desc)
  }

  /** The elements whose key is `c`, in order. */
  function WithKey<T>(s: seq<T>, key: T -> real, c: real): seq<T>
    decreases |s|
  {
    if |s| == 0 then [] else (if key(s[0]) == c then [s[0]] else []) + WithKey(s[1..], key, c)
  }

  lemma WithKeyCons<T>(y: T, t: seq<T>, key: T -> real, c: real)
    ensures WithKey([y] + t, key, c) == (if key(y) == c then [y] else []) + WithKey(t, key, c)
  {
    ConsParts(y, t);
  }

  /** Two parts of which one is empty may trade places. */
  lemma SwapEmpty<T>(a: seq<T>, b: seq<T>, w: seq<T>)
    requires a == [] || b == []
    ensures a + (b + w) == b + (a + w)
  {
  }

  lemma {:induction false} InsertWithKey<T>(x: T, s: seq<T>, key: T -> real, desc: bool, c: real)
    ensures WithKey(Insert(x, s, key, desc), key, c) == (if key(x) == c then [x] else []) + WithKey(s, key, c)
    decreases |s|
  {
    if |s| == 0 {
      WithKeyCons(x, s, key, c);
    } else if Before(key, desc, x, s[0]) {
      WithKeyCons(x, s, key, c);
    } else {
      var t := Insert(x, s[1..], key, desc);
      InsertWithKey(x, s[1..], key, desc, c);
      WithKeyCons(s[0], t, key, c);
      SwapEmpty(if key(s[0]) == c then [s[0]] else [], if key(x) == c then [x] else [], WithKey(s[1..], key, c));
    }
  }

  /** Stability: elements with equal keys keep their relative order. */
  lemma {:induction false} SortIsStable<T>(s: seq<T>, key: T -> real, desc: bool, c: real)
    ensures WithKey(StableSort(s, key, desc), key, c) == WithKey(s, key, c)
    decreases |s|
  {
    if s != [] {
      SortIsStable(s[1..], key, desc, c);
      InsertWithKey(s[0], StableSort(s[1..], key, desc), key, desc, c);
    }
  }

  /** The position of the first element that every element may follow: the
      first maximum (descending) or first minimum (ascending). */
  function BestIndex<T>(s: seq<T>, key: T -> real, desc: bool): (i: nat)
    requires s != []
    ensures i < |s|
    ensures forall j | 0 <= j < |s| :: Before(key, desc, s[i], s[j])
    ensures forall j | 0 <= j < i :: !Before(key, desc, s[j], s[i])
    decreases |s|
  {
    if |s| == 1 then 0
    else
      var j := 1 + BestIndex(s[1..], key, desc);
      assert s[j] == s[1..][j - 1];
      if Before(key, desc, s[0], s[j]) then 0 else j
  }

  /** `sort(...)[0]` is the first best element of the input. */
  lemma {:induction false} SortHead<T>(s: seq<T>, key: T -> real, desc: bool)
    requires s != []
    ensures StableSort(s, key, desc)[0] == s[BestIndex(s, key, desc)]
    decreases |s|
  {
    if |s| > 1 {
      SortHead(s[1..], key, desc);
      var j := 1 + BestIndex(s[1..], key, desc);
      assert s[j] == s[1..][j - 1];
    }
  }

  /** Sorting a sorted sequence changes nothing. */
  lemma {:induction false} SortOfOrdered<T>(s: seq<T>, key: T -> real, desc: bool)
    requires Ordered(s, key, desc)
    ensures StableSort(s, key, desc) == s
    decreases |s|
  {
    if s != [] {
      assert Ordered(s[1..], key, desc);
      SortOfOrdered(s[1..], key, desc);
      if |s| > 1 {
        assert Before(key, desc, s[0], s[1]);
      }
      assert s == [s[0]] + s[1..];
    }
  }

  /** No two elements share a tag. */
  predicate DistinctBy<T, K(==)>(s: seq<T>, tag: T -> K) {
    forall i, j | 0 <= i < j < |s| :: tag(s[i]) != tag(s[j])
  }

  lemma DistinctCons<T, K>(x: T, s: seq<T>, tag: T -> K)
    requires DistinctBy(s, tag) && forall i | 0 <= i < |s| :: tag(s[i]) != tag(x)
    ensures DistinctBy([x] + s, tag)
  {
    ConsParts(x, s);
    forall i, j | 0 <= i < j < |[x] + s| ensures tag(([x] + s)[i]) != tag(([x] + s)[j]) {
      assert ([x] + s)[j] == s[j - 1];
      if i > 0 { assert ([x] + s)[i] == s[i - 1]; }
    }
  }

  lemma {:induction false} InsertDistinct<T, K>(x: T, s: seq<T>, key: T -> real, desc: bool, tag: T -> K)
    requires DistinctBy(s, tag) && forall i | 0 <= i < |s| :: tag(s[i]) != tag(x)
    ensures DistinctBy(Insert(x, s, key, desc), tag)
    decreases |s|
  {
    if |s| > 0 && !Before(key, desc, x, s[0]) {
      var t := Insert(x, s[1..], key, desc);
      InsertDistinct(x, s[1..], key, desc, tag);
      forall j | 0 <= j < |t| ensures tag(s[0]) != tag(t[j]) {
        assert t[j] in multiset(s[1..]) + multiset{x};
        if t[j] != x {
          var k :| 0 <= k < |s[1..]| && s[1..][k] == t[j];
          assert s[k + 1] == t[j];
        }
      }
      ConsParts(s[0], t);
    }
  }

  /** Sorting keeps tags distinct. */
  lemma {:induction false} SortDistinct<T, K>(s: seq<T>, key: T -> real, desc: bool, tag: T -> K)
    requires DistinctBy(s, tag)
    ensures DistinctBy(StableSort(s, key, desc), tag)
    decreases |s|
  {
    if |s| > 0 {
      var t := StableSort(s[1..], key, desc);
      SortDistinct(s[1..], key, desc, tag);
      forall i | 0 <= i < |t| ensures tag(t[i]) != tag(s[0]) {
        assert t[i] in multiset(s[1..]);
        var k :| 0 <= k < |s[1..]| && s[1..][k] == t[i];
        assert s[k + 1] == t[i];
      }
      InsertDistinct(s[0], t, key, desc, tag);
    }
  }

  /** The sorted sequence holds exactly the elements of the input. */
  lemma SortSameElements<T>(s: seq<T>, key: T -> real, desc: bool, x: T)
    ensures x in StableSort(s, key, desc) <==> x in s
  {
    assert x in multiset(StableSort(s, key, desc)) <==> x in multiset(s);
  }
  /** `sort(...).slice(0, n)`: the first `n` elements in sorted order, drawn
      from the input, and no element left out may stand before one that
      was kept. */
  lemma SortedTop<T>(s: seq<T>, key: T -> real, desc: bool, n: nat)
    ensures multiset(Take(StableSort(s, key, desc), n)) <= multiset(s)
    ensures Ordered(Take(StableSort(s, key, desc), n), key, desc)
    ensures forall x, j | x in s && x !in Take(StableSort(s, key, desc), n) &&
                          0 <= j < |Take(StableSort(s, key, desc), n)| ::
              Before(key, desc, Take(StableSort(s, key, desc), n)[j], x)
  {
    var t := StableSort(s, key, desc);
    var r := Take(t, n);
    var rest := t[|r|..];
    assert t == r + rest;
    assert multiset(t) == multiset(r) + multiset(rest);
    forall x, j | x in s && x !in r && 0 <= j < |r|
      ensures Before(key, desc, r[j], x)
    {
      assert x in multiset(t);
      assert x in rest;
      var i :| 0 <= i < |rest| && rest[i] == x;
      assert t[j] == r[j] && t[|r| + i] == x;
    }
  }

  /** An element of a prefix of the sorted sequence is an element of the
      input. */
  lemma SortedTopElement<T>(s: seq<T>, key: T -> real, desc: bool, n: nat, x: T)
    requires x in Take(StableSort(s, key, desc), n)
    ensures x in s
  {
    SortedTop(s, key, desc, n);
    assert x in multiset(Take(StableSort(s, key, desc), n));
  }
}
