/**
 * The engine's JavaScript `Map`s as association lists. Iteration order is
 * first-insertion order, `set` on a present key keeps its place, and `get`
 * of a missing key is `undefined` (None). The folds at the end are the
 * engine's recurring `forEach` loops that fill such maps.
 */
module OrderedMaps {
  import opened Options
  import opened Sequences

  type OrderedMap<K, V> = seq<(K, V)>

  predicate NoDuplicates<T(==)>(s: seq<T>) {
    forall i, j | 0 <= i < j < |s| :: s[i] != s[j]
  }

  /** `[...m.keys()]`. */
  function Keys<K, V>(m: OrderedMap<K, V>): (ks: seq<K>)
    ensures |ks| == |m| && forall i | 0 <= i < |m| :: ks[i] == m[i].0
  {
    seq(|m|, i requires 0 <= i < |m| => m[i].0)
  }

  /** `[...m.values()]`. */
  function Values<K, V>(m: OrderedMap<K, V>): (vs: seq<V>)
    ensures |vs| == |m| && forall i | 0 <= i < |m| :: vs[i] == m[i].1
  {
    seq(|m|, i requires 0 <= i < |m| => m[i].1)
  }

  /** What every map the engine builds satisfies: no key twice. */
  predicate DistinctKeys<K(==), V>(m: OrderedMap<K, V>) {
    NoDuplicates(Keys(m))
  }

  /** `m.get(k)`. */
  function Get<K(==), V>(m: OrderedMap<K, V>, k: K): Option<V>
    decreases |m|
  {
    if |m| == 0 then None
    else if m[0].0 == k then Some(m[0].1)
    else Get(m[1..], k)
  }

  /** `m.has(k)`. */
  predicate HasKey<K(==), V>(m: OrderedMap<K, V>, k: K) {
    Get(m, k).Some?
  }

  /** `m.get(k) || d`, for values that are never falsy. */
  function GetOr<K(==), V>(m: OrderedMap<K, V>, k: K, d: V): V {
    Get(m, k).GetOr(d)
  }

  lemma {:induction false} HasKeyIffInKeys<K, V>(m: OrderedMap<K, V>, k: K)
    ensures HasKey(m, k) <==> k in Keys(m)
    decreases |m|
  {
    if m != [] {
      HasKeyIffInKeys(m[1..], k);
      assert Keys(m) == [m[0].0] + Keys(m[1..]);
    }
  }

  lemma DistinctKeysTail<K, V>(m: OrderedMap<K, V>)
    requires DistinctKeys(m) && m != []
    ensures DistinctKeys(m[1..])
  {
    forall a, b | 0 <= a < b < |m[1..]| ensures Keys(m[1..])[a] != Keys(m[1..])[b] {
      assert Keys(m)[a + 1] != Keys(m)[b + 1];
    }
  }

  /** A present key's value is the value of its entry. */
  lemma {:induction false} GetAt<K, V>(m: OrderedMap<K, V>, i: nat)
    requires DistinctKeys(m) && i < |m|
    ensures Get(m, m[i].0) == Some(m[i].1)
    decreases |m|
  {
    if i > 0 {
      assert Keys(m)[0] != Keys(m)[i];
      assert DistinctKeys(m[1..]) by {
        forall a, b | 0 <= a < b < |m[1..]| ensures Keys(m[1..])[a] != Keys(m[1..])[b] {
          assert Keys(m)[a + 1] != Keys(m)[b + 1];
        }
      }
      GetAt(m[1..], i - 1);
    }
  }

  /** A value found under a key is one of the map's entries. */
  lemma {:induction false} GetIsEntry<K, V>(m: OrderedMap<K, V>, k: K)
    requires HasKey(m, k)
    ensures (k, Get(m, k).value) in m
    decreases |m|
  {
    if m[0].0 != k {
      GetIsEntry(m[1..], k);
    }
  }

  /** `m.set(k, v)`: a present key keeps its place and takes the new value;
      a new key goes last. */
  function Set<K(==), V>(m: OrderedMap<K, V>, k: K, v: V): OrderedMap<K, V>
    decreases |m|
  {
    if |m| == 0 then [(k, v)]
    else if m[0].0 == k then [(k, v)] + m[1..]
    else [m[0]] + Set(m[1..], k, v)
  }

  /** After `set`, the key finds the new value. */
  lemma {:induction false} SetGet<K, V>(m: OrderedMap<K, V>, k: K, v: V)
    ensures Get(Set(m, k, v), k) == Some(v)
    decreases |m|
  {
    if |m| > 0 && m[0].0 != k {
      SetGet(m[1..], k, v);
      ConsParts(m[0], Set(m[1..], k, v));
    } else if |m| > 0 {
      ConsParts((k, v), m[1..]);
    }
  }

  /** `set` keeps the keys in place and puts a new key last. */
  lemma {:induction false} SetKeys<K, V>(m: OrderedMap<K, V>, k: K, v: V)
    ensures Keys(Set(m, k, v)) == if HasKey(m, k) then Keys(m) else Keys(m) + [k]
    decreases |m|
  {
    if |m| > 0 {
      KeysTail(m);
      if m[0].0 == k {
        KeysCons((k, v), m[1..]);
      } else {
        var t := Set(m[1..], k, v);
        SetKeys(m[1..], k, v);
        KeysCons(m[0], t);
        AppendAssoc([m[0].0], Keys(m[1..]), [k]);
      }
    }
  }

  lemma KeysCons<K, V>(e: (K, V), m: OrderedMap<K, V>)
    ensures Keys([e] + m) == [e.0] + Keys(m) && ([e] + m)[0] == e && ([e] + m)[1..] == m
  {
  }

  lemma KeysTail<K, V>(m: OrderedMap<K, V>)
    requires m != []
    ensures Keys(m) == [m[0].0] + Keys(m[1..])
  {
  }

  /** `set` adds one entry for a new key and none for a present one. */
  lemma SetLength<K, V>(m: OrderedMap<K, V>, k: K, v: V)
    ensures |Set(m, k, v)| == if HasKey(m, k) then |m| else |m| + 1
  {
    SetKeys(m, k, v);
  }

  /** `set` leaves every other key alone. */
  lemma {:induction false} SetGetOther<K, V>(m: OrderedMap<K, V>, k: K, v: V, j: K)
    requires j != k
    ensures Get(Set(m, k, v), j) == Get(m, j)
    decreases |m|
  {
    if |m| > 0 && m[0].0 != k {
      SetGetOther(m[1..], k, v, j);
    }
  }

  lemma SetKeepsDistinct<K, V>(m: OrderedMap<K, V>, k: K, v: V)
    requires DistinctKeys(m)
    ensures DistinctKeys(Set(m, k, v))
  {
    HasKeyIffInKeys(m, k);
    SetKeys(m, k, v);
  }

  /** `m.set(k, (m.get(k) || 0) + d)`: the counter update of every tally. */
  function Add<K(==)>(m: OrderedMap<K, int>, k: K, d: int): OrderedMap<K, int> {
    Set(m, k, GetOr(m, k, 0) + d)
  }

  /** The sum of a map's values. */
  function Sum<K>(m: OrderedMap<K, int>): int
    decreases |m|
  {
    if |m| == 0 then 0 else m[0].1 + Sum(m[1..])
  }

  /** Adding `d` under any key adds `d` to the sum of the values. */
  lemma AddSum<K>(m: OrderedMap<K, int>, k: K, d: int)
    ensures Sum(Add(m, k, d)) == Sum(m) + d
  {
    SetSum(m, k, GetOr(m, k, 0) + d);
  }

  /** `set` trades the old value of the key (0 when absent) for the new one. */
  lemma {:induction false} SetSum<K>(m: OrderedMap<K, int>, k: K, v: int)
    ensures Sum(Set(m, k, v)) == Sum(m) - GetOr(m, k, 0) + v
    decreases |m|
  {
    if m == [] {
      assert Sum([(k, v)]) == v + Sum([(k, v)][1..]);
    } else if m[0].0 == k {
      var r := [(k, v)] + m[1..];
      assert r[1..] == m[1..];
      assert Sum(r) == v + Sum(m[1..]);
    } else {
      var t := Set(m[1..], k, v);
      SetSum(m[1..], k, v);
      var r := [m[0]] + t;
      assert r[1..] == t;
      assert Sum(r) == m[0].1 + Sum(t);
      assert GetOr(m, k, 0) == GetOr(m[1..], k, 0);
    }
  }

  /** A map with distinct keys has as many entries as keys. */
  lemma {:induction false} DistinctKeyCount<K, V>(m: OrderedMap<K, V>)
    requires DistinctKeys(m)
    ensures |set i | 0 <= i < |m| :: m[i].0| == |m|
    decreases |m|
  {
    if m != [] {
      var tail := m[1..];
      assert DistinctKeys(tail) by {
        forall a, b | 0 <= a < b < |tail| ensures Keys(tail)[a] != Keys(tail)[b] {
          assert Keys(m)[a + 1] != Keys(m)[b + 1];
        }
      }
      DistinctKeyCount(tail);
      var ks := set i | 0 <= i < |m| :: m[i].0;
      var kt := set i | 0 <= i < |tail| :: tail[i].0;
      assert ks == kt + {m[0].0} by {
        forall x | x in ks ensures x in kt + {m[0].0} {
          var i :| 0 <= i < |m| && m[i].0 == x;
          if i > 0 { assert tail[i - 1].0 == x; }
        }
      }
      assert m[0].0 !in kt by {
        forall i | 0 <= i < |tail| ensures tail[i].0 != m[0].0 {
          assert Keys(m)[0] != Keys(m)[i + 1];
        }
      }
    }
  }

  // ---------------------------------------------------------------------
  // The loops that fill maps.

  /** `keys.forEach(k => m.set(k, v))`. */
  function SetAll<K(==), V>(m: OrderedMap<K, V>, keys: seq<K>, v: V): OrderedMap<K, V>
    decreases |keys|
  {
    if |keys| == 0 then m else SetAll(Set(m, keys[0], v), keys[1..], v)
  }

  lemma {:induction false} SetAllGet<K, V>(m: OrderedMap<K, V>, keys: seq<K>, v: V, k: K)
    ensures Get(SetAll(m, keys, v), k) == if k in keys then Some(v) else Get(m, k)
    decreases |keys|
  {
    if keys != [] {
      if k != keys[0] { SetGetOther(m, keys[0], v, k); } else { SetGet(m, k, v); }
      SetAllGet(Set(m, keys[0], v), keys[1..], v, k);
      assert k in keys <==> k == keys[0] || k in keys[1..];
    }
  }

  lemma {:induction false} SetAllDistinct<K, V>(m: OrderedMap<K, V>, keys: seq<K>, v: V)
    requires DistinctKeys(m)
    ensures DistinctKeys(SetAll(m, keys, v))
    decreases |keys|
  {
    if keys != [] {
      SetKeepsDistinct(m, keys[0], v);
      SetAllDistinct(Set(m, keys[0], v), keys[1..], v);
    }
  }

  lemma {:induction false} SetAllSum<K>(m: OrderedMap<K, int>, keys: seq<K>)
    requires forall i | 0 <= i < |m| :: m[i].1 == 0
    ensures Sum(SetAll(m, keys, 0)) == 0
    ensures forall i | 0 <= i < |SetAll(m, keys, 0)| :: SetAll(m, keys, 0)[i].1 == 0
    decreases |keys|
  {
    if keys == [] {
      ZeroSum(m);
    } else {
      SetZeroEntries(m, keys[0]);
      SetAllSum(Set(m, keys[0], 0), keys[1..]);
    }
  }

  lemma {:induction false} ZeroSum<K>(m: OrderedMap<K, int>)
    requires forall i | 0 <= i < |m| :: m[i].1 == 0
    ensures Sum(m) == 0
    decreases |m|
  {
    if m != [] {
      ZeroSum(m[1..]);
    }
  }

  lemma {:induction false} SetZeroEntries<K>(m: OrderedMap<K, int>, k: K)
    requires forall i | 0 <= i < |m| :: m[i].1 == 0
    ensures forall i | 0 <= i < |Set(m, k, 0)| :: Set(m, k, 0)[i].1 == 0
    decreases |m|
  {
    if |m| > 0 && m[0].0 != k {
      SetZeroEntries(m[1..], k);
    }
  }

  /** The per-item step of `Tally`: items without a key change nothing. */
  function Bump<T, K(==)>(m: OrderedMap<K, int>, x: T, key: T -> Option<K>, weight: T -> int): OrderedMap<K, int> {
    match key(x)
    case None => m
    case Some(k) => Add(m, k, weight(x))
  }

  /** `items.forEach(x => { const k = key(x); if (k) m.set(k, (m.get(k) || 0) + weight(x)); })`. */
  function Tally<T, K(==)>(m: OrderedMap<K, int>, items: seq<T>, key: T -> Option<K>, weight: T -> int): OrderedMap<K, int>
    decreases |items|
  {
    if |items| == 0 then m else Tally(Bump(m, items[0], key, weight), items[1..], key, weight)
  }

  /** The total weight of the items filed under `k`. */
  function SumFor<T, K(==)>(items: seq<T>, key: T -> Option<K>, weight: T -> int, k: K): int
    decreases |items|
  {
    if |items| == 0 then 0
    else (if key(items[0]) == Some(k) then weight(items[0]) else 0) + SumFor(items[1..], key, weight, k)
  }

  /** The total weight of the items filed under some key. */
  function SumKeyed<T, K>(items: seq<T>, key: T -> Option<K>, weight: T -> int): int
    decreases |items|
  {
    if |items| == 0 then 0
    else (if key(items[0]).Some? then weight(items[0]) else 0) + SumKeyed(items[1..], key, weight)
  }

  /** Some item is filed under `k`. */
  predicate Keyed<T, K(==)>(items: seq<T>, key: T -> Option<K>, k: K) {
    exists i | 0 <= i < |items| :: key(items[i]) == Some(k)
  }

  /** Every key of a tally ends up with its start value plus the weights of
      the items filed under it. */
  lemma {:induction false} TallyGet<T, K>(m: OrderedMap<K, int>, items: seq<T>, key: T -> Option<K>, weight: T -> int, k: K)
    ensures GetOr(Tally(m, items, key, weight), k, 0) == GetOr(m, k, 0) + SumFor(items, key, weight, k)
    decreases |items|
  {
    if items != [] {
      var x := items[0];
      if key(x).Some? && key(x).value != k {
        SetGetOther(m, key(x).value, GetOr(m, key(x).value, 0) + weight(x), k);
      } else if key(x).Some? {
        SetGet(m, k, GetOr(m, k, 0) + weight(x));
      }
      TallyGet(Bump(m, items[0], key, weight), items[1..], key, weight, k);
    }
  }

  lemma KeyedCons<T, K>(items: seq<T>, key: T -> Option<K>, k: K)
    requires items != []
    ensures Keyed(items, key, k) <==> key(items[0]) == Some(k) || Keyed(items[1..], key, k)
  {
    if Keyed(items, key, k) && key(items[0]) != Some(k) {
      var i :| 0 <= i < |items| && key(items[i]) == Some(k);
      assert key(items[1..][i - 1]) == Some(k);
    }
    if Keyed(items[1..], key, k) {
      var i :| 0 <= i < |items[1..]| && key(items[1..][i]) == Some(k);
      assert key(items[i + 1]) == Some(k);
    }
  }

  lemma BumpHasKey<T, K>(m: OrderedMap<K, int>, x: T, key: T -> Option<K>, weight: T -> int, k: K)
    ensures HasKey(Bump(m, x, key, weight), k) <==> HasKey(m, k) || key(x) == Some(k)
  {
    if key(x).Some? && key(x).value != k {
      SetGetOther(m, key(x).value, GetOr(m, key(x).value, 0) + weight(x), k);
    } else if key(x).Some? {
      SetGet(m, k, GetOr(m, k, 0) + weight(x));
    }
  }

  /** A tally has exactly the start keys and the keys some item is filed under. */
  lemma {:induction false} TallyHasKey<T, K>(m: OrderedMap<K, int>, items: seq<T>, key: T -> Option<K>, weight: T -> int, k: K)
    ensures HasKey(Tally(m, items, key, weight), k) <==> HasKey(m, k) || Keyed(items, key, k)
    decreases |items|
  {
    if items != [] {
      BumpHasKey(m, items[0], key, weight, k);
      KeyedCons(items, key, k);
      TallyHasKey(Bump(m, items[0], key, weight), items[1..], key, weight, k);
    }
  }

  lemma {:induction false} TallyDistinct<T, K>(m: OrderedMap<K, int>, items: seq<T>, key: T -> Option<K>, weight: T -> int)
    requires DistinctKeys(m)
    ensures DistinctKeys(Tally(m, items, key, weight))
    decreases |items|
  {
    if items != [] {
      if key(items[0]).Some? {
        SetKeepsDistinct(m, key(items[0]).value, GetOr(m, key(items[0]).value, 0) + weight(items[0]));
      }
      TallyDistinct(Bump(m, items[0], key, weight), items[1..], key, weight);
    }
  }

  /** Nothing is lost: the values of a tally sum to the start sum plus the
      weight of every item that has a key. */
  lemma {:induction false} TallySum<T, K>(m: OrderedMap<K, int>, items: seq<T>, key: T -> Option<K>, weight: T -> int)
    ensures Sum(Tally(m, items, key, weight)) == Sum(m) + SumKeyed(items, key, weight)
    decreases |items|
  {
    if items != [] {
      if key(items[0]).Some? {
        AddSum(m, key(items[0]).value, weight(items[0]));
      }
      TallySum(Bump(m, items[0], key, weight), items[1..], key, weight);
    }
  }

  /** With non-negative start values and weights every value stays non-negative. */
  lemma {:induction false} TallyNonNegative<T, K>(m: OrderedMap<K, int>, items: seq<T>, key: T -> Option<K>, weight: T -> int)
    requires forall i | 0 <= i < |m| :: m[i].1 >= 0
    requires forall i | 0 <= i < |items| :: weight(items[i]) >= 0
    ensures forall i | 0 <= i < |Tally(m, items, key, weight)| :: Tally(m, items, key, weight)[i].1 >= 0
    decreases |items|
  {
    if items != [] {
      var x := items[0];
      if key(x).Some? {
        var k := key(x).value;
        if HasKey(m, k) { GetIsEntry(m, k); }
        SetNonNegative(m, k, GetOr(m, k, 0) + weight(x));
      }
      TallyNonNegative(Bump(m, x, key, weight), items[1..], key, weight);
    }
  }

  lemma {:induction false} SetNonNegative<K>(m: OrderedMap<K, int>, k: K, v: int)
    requires forall i | 0 <= i < |m| :: m[i].1 >= 0
    requires v >= 0
    ensures forall i | 0 <= i < |Set(m, k, v)| :: Set(m, k, v)[i].1 >= 0
    decreases |m|
  {
    if |m| > 0 && m[0].0 != k {
      SetNonNegative(m[1..], k, v);
    }
  }

  method TallyLoop<T, K(==)>(m0: OrderedMap<K, int>, items: seq<T>, key: T -> Option<K>, weight: T -> int)
    returns (m: OrderedMap<K, int>)
    ensures m == Tally(m0, items, key, weight)
  {
    m := m0;
    var i := 0;
    while i < |items|
      invariant 0 <= i <= |items|
      invariant Tally(m, items[i..], key, weight) == Tally(m0, items, key, weight)
    {
      var k := key(items[i]);
      if k.Some? {
        m := Add(m, k.value, weight(items[i]));
      }
      i := i + 1;
    }
  }

  method SetAllLoop<K(==), V>(m0: OrderedMap<K, V>, keys: seq<K>, v: V) returns (m: OrderedMap<K, V>)
    ensures m == SetAll(m0, keys, v)
  {
    m := m0;
    for i := 0 to |keys|
      invariant SetAll(m, keys[i..], v) == SetAll(m0, keys, v)
    {
      m := Set(m, keys[i], v);
    }
  }

  /** The last item filed under `k`. */
  function LastWith<T, K(==)>(items: seq<T>, key: T -> K, k: K): Option<T>
    decreases |items|
  {
    if |items| == 0 then None
    else match LastWith(items[1..], key, k)
      case Some(x) => Some(x)
      case None => if key(items[0]) == k then Some(items[0]) else None
  }

  /** `items.forEach(x => m.set(key(x), val(x)))`, and `new Map(items.map(...))`. */
  function Index<T, K(==), V>(m: OrderedMap<K, V>, items: seq<T>, key: T -> K, val: T -> V): OrderedMap<K, V>
    decreases |items|
  {
    if |items| == 0 then m else Index(Set(m, key(items[0]), val(items[0])), items[1..], key, val)
  }

  /** Last write wins: a key finds the value of the last item with that key. */
  lemma {:induction false} IndexGet<T, K, V>(m: OrderedMap<K, V>, items: seq<T>, key: T -> K, val: T -> V, k: K)
    ensures Get(Index(m, items, key, val), k) ==
            match LastWith(items, key, k)
            case Some(x) => Some(val(x))
            case None => Get(m, k)
    decreases |items|
  {
    if items != [] {
      if k != key(items[0]) { SetGetOther(m, key(items[0]), val(items[0]), k); } else { SetGet(m, k, val(items[0])); }
      IndexGet(Set(m, key(items[0]), val(items[0])), items[1..], key, val, k);
    }
  }

  lemma {:induction false} IndexDistinct<T, K, V>(m: OrderedMap<K, V>, items: seq<T>, key: T -> K, val: T -> V)
    requires DistinctKeys(m)
    ensures DistinctKeys(Index(m, items, key, val))
    decreases |items|
  {
    if items != [] {
      SetKeepsDistinct(m, key(items[0]), val(items[0]));
      IndexDistinct(Set(m, key(items[0]), val(items[0])), items[1..], key, val);
    }
  }

  /** Each item adds at most one entry. */
  lemma {:induction false} IndexLength<T, K, V>(m: OrderedMap<K, V>, items: seq<T>, key: T -> K, val: T -> V)
    ensures |Index(m, items, key, val)| <= |m| + |items|
    decreases |items|
  {
    if |items| > 0 {
      SetLength(m, key(items[0]), val(items[0]));
      IndexLength(Set(m, key(items[0]), val(items[0])), items[1..], key, val);
    }
  }

  /** The last item with a key is an item with that key. */
  lemma {:induction false} LastWithIsItem<T, K>(items: seq<T>, key: T -> K, k: K)
    ensures LastWith(items, key, k).Some? <==> exists i | 0 <= i < |items| :: key(items[i]) == k
    ensures LastWith(items, key, k).Some? ==>
            LastWith(items, key, k).value in items && key(LastWith(items, key, k).value) == k
    decreases |items|
  {
    if items != [] {
      LastWithIsItem(items[1..], key, k);
      if exists i | 0 <= i < |items| :: key(items[i]) == k {
        var i :| 0 <= i < |items| && key(items[i]) == k;
        if i > 0 { assert key(items[1..][i - 1]) == k; }
      }
      if exists i | 0 <= i < |items[1..]| :: key(items[1..][i]) == k {
        var i :| 0 <= i < |items[1..]| && key(items[1..][i]) == k;
        assert key(items[i + 1]) == k;
      }
    }
  }

  method IndexLoop<T, K(==), V>(m0: OrderedMap<K, V>, items: seq<T>, key: T -> K, val: T -> V)
    returns (m: OrderedMap<K, V>)
    ensures m == Index(m0, items, key, val)
  {
    m := m0;
    for i := 0 to |items|
      invariant Index(m, items[i..], key, val) == Index(m0, items, key, val)
    {
      m := Set(m, key(items[i]), val(items[i]));
    }
  }

}
