/**
 * The record-per-key pattern of the statistics code:
 * `if (!m.has(k)) m.set(k, blank); const s = m.get(k)!; ...update s...`
 * run for every item, where the update changes the stored record in place.
 * A record is a value here, so the update is a `step` function on records
 * and the map takes the updated record under its key.
 */
module Accumulators {
  import opened Options
  import opened Sequences
  import opened OrderedMaps

  /** The updates one record receives, in item order. */
  function Fold<V, T>(v: V, items: seq<T>, step: (V, T) -> V): V
    decreases |items|
  {
    if |items| == 0 then v else Fold(step(v, items[0]), items[1..], step)
  }

  /** One item: the record of its key (a blank one for a new key) updated. */
  function Absorb<T, K(==), V>(m: OrderedMap<K, V>, x: T, key: T -> K, blank: K -> V, step: (V, T) -> V): OrderedMap<K, V> {
    Set(m, key(x), step(GetOr(m, key(x), blank(key(x))), x))
  }

  /** Every item absorbed in order. */
  function Accumulate<T, K(==), V>(m: OrderedMap<K, V>, items: seq<T>, key: T -> K, blank: K -> V, step: (V, T) -> V): OrderedMap<K, V>
    decreases |items|
  {
    if |items| == 0 then m else Accumulate(Absorb(m, items[0], key, blank, step), items[1..], key, blank, step)
  }

  /** The items filed under `k`. */
  function KeyIs<T, K(==)>(key: T -> K, k: K): T -> bool {
    x => key(x) == k
  }

  /** The sum of `weight` over the items. */
  function Total<T>(items: seq<T>, weight: T -> int): int
    decreases |items|
  {
    if |items| == 0 then 0 else weight(items[0]) + Total(items[1..], weight)
  }

  /** The sum of `measure` over the records of a map. */
  function SumBy<K, V>(m: OrderedMap<K, V>, measure: V -> int): int
    decreases |m|
  {
    if |m| == 0 then 0 else measure(m[0].1) + SumBy(m[1..], measure)
  }

  lemma FoldCons<V, T>(v: V, x: T, rest: seq<T>, step: (V, T) -> V)
    ensures Fold(v, [x] + rest, step) == Fold(step(v, x), rest, step)
  {
    assert ([x] + rest)[1..] == rest;
  }

  /** A key's record is its start record updated by the items filed under
      that key, in order; the other items leave it alone. */
  lemma {:induction false} AccumulateGet<T, K, V>(m: OrderedMap<K, V>, items: seq<T>, key: T -> K, blank: K -> V, step: (V, T) -> V, k: K)
    ensures GetOr(Accumulate(m, items, key, blank, step), k, blank(k)) ==
            Fold(GetOr(m, k, blank(k)), Filter(items, KeyIs(key, k)), step)
    decreases |items|
  {
    if items != [] {
      var x := items[0];
      var m' := Absorb(m, x, key, blank, step);
      AccumulateGet(m', items[1..], key, blank, step, k);
      assert items == [x] + items[1..];
      if key(x) == k {
        SetGet(m, k, step(GetOr(m, k, blank(k)), x));
        assert Filter(items, KeyIs(key, k)) == [x] + Filter(items[1..], KeyIs(key, k));
        FoldCons(GetOr(m, k, blank(k)), x, Filter(items[1..], KeyIs(key, k)), step);
      } else {
        SetGetOther(m, key(x), step(GetOr(m, key(x), blank(key(x))), x), k);
      }
    }
  }

  /** The keys are the start keys and the keys of the items. */
  lemma {:induction false} AccumulateHasKey<T, K, V>(m: OrderedMap<K, V>, items: seq<T>, key: T -> K, blank: K -> V, step: (V, T) -> V, k: K)
    ensures HasKey(Accumulate(m, items, key, blank, step), k) <==>
            HasKey(m, k) || exists i | 0 <= i < |items| :: key(items[i]) == k
    decreases |items|
  {
    if items != [] {
      var x := items[0];
      var m' := Absorb(m, x, key, blank, step);
      AccumulateHasKey(m', items[1..], key, blank, step, k);
      if key(x) == k {
        SetGet(m, k, step(GetOr(m, k, blank(k)), x));
      } else {
        SetGetOther(m, key(x), step(GetOr(m, key(x), blank(key(x))), x), k);
      }
      if exists i | 0 <= i < |items| :: key(items[i]) == k {
        var i :| 0 <= i < |items| && key(items[i]) == k;
        if i > 0 { assert key(items[1..][i - 1]) == k; }
      }
      if exists i | 0 <= i < |items[1..]| :: key(items[1..][i]) == k {
        var i :| 0 <= i < |items[1..]| && key(items[1..][i]) == k;
        assert key(items[i + 1]) == k;
      }
    }
  }

  /** No key is ever stored twice. */
  lemma {:induction false} AccumulateDistinct<T, K, V>(m: OrderedMap<K, V>, items: seq<T>, key: T -> K, blank: K -> V, step: (V, T) -> V)
    requires DistinctKeys(m)
    ensures DistinctKeys(Accumulate(m, items, key, blank, step))
    decreases |items|
  {
    if items != [] {
      var x := items[0];
      SetKeepsDistinct(m, key(x), step(GetOr(m, key(x), blank(key(x))), x));
      AccumulateDistinct(Absorb(m, x, key, blank, step), items[1..], key, blank, step);
    }
  }

  /** Absorbing two runs of items one after the other. */
  lemma {:induction false} AccumulateAppend<T, K, V>(m: OrderedMap<K, V>, a: seq<T>, b: seq<T>, key: T -> K, blank: K -> V, step: (V, T) -> V)
    ensures Accumulate(m, a + b, key, blank, step) ==
            Accumulate(Accumulate(m, a, key, blank, step), b, key, blank, step)
    decreases |a|
  {
    if a == [] {
      assert a + b == b;
    } else {
      assert (a + b)[0] == a[0];
      assert (a + b)[1..] == a[1..] + b;
      AccumulateAppend(Absorb(m, a[0], key, blank, step), a[1..], b, key, blank, step);
    }
  }

  /** Built from nothing, every entry holds the blank record of its key
      updated by exactly the items filed under that key. */
  lemma AccumulateEntries<T, K, V>(items: seq<T>, key: T -> K, blank: K -> V, step: (V, T) -> V, i: nat)
    requires i < |Accumulate([], items, key, blank, step)|
    ensures DistinctKeys(Accumulate([], items, key, blank, step))
    ensures Accumulate([], items, key, blank, step)[i].1 ==
            Fold(blank(Accumulate([], items, key, blank, step)[i].0),
                 Filter(items, KeyIs(key, Accumulate([], items, key, blank, step)[i].0)), step)
  {
    var r := Accumulate([], items, key, blank, step);
    AccumulateDistinct([], items, key, blank, step);
    GetAt(r, i);
    AccumulateGet([], items, key, blank, step, r[i].0);
  }

  /** A measure that every update raises by one grows by the number of
      items. */
  lemma {:induction false} FoldCount<V, T>(v: V, items: seq<T>, step: (V, T) -> V, measure: V -> int)
    requires forall w, x :: measure(step(w, x)) == measure(w) + 1
    ensures measure(Fold(v, items, step)) == measure(v) + |items|
    decreases |items|
  {
    if items != [] {
      FoldCount(step(v, items[0]), items[1..], step, measure);
    }
  }

  /** A property that every update keeps holds after all of them. */
  lemma {:induction false} FoldKeeps<V, T>(v: V, items: seq<T>, step: (V, T) -> V, inv: V -> bool)
    requires forall w, x :: inv(w) ==> inv(step(w, x))
    requires inv(v)
    ensures inv(Fold(v, items, step))
    decreases |items|
  {
    if items != [] {
      FoldKeeps(step(v, items[0]), items[1..], step, inv);
    }
  }

  /** `set` trades the measure of the old record for that of the new one;
      an absent key counts with the measure of the default, which is zero. */
  lemma {:induction false} SetSumBy<K, V>(m: OrderedMap<K, V>, k: K, v: V, d: V, measure: V -> int)
    requires measure(d) == 0
    ensures SumBy(Set(m, k, v), measure) == SumBy(m, measure) - measure(GetOr(m, k, d)) + measure(v)
    decreases |m|
  {
    if m == [] {
      assert SumBy([(k, v)], measure) == measure(v) + SumBy([(k, v)][1..], measure);
    } else if m[0].0 == k {
      var r := [(k, v)] + m[1..];
      assert r[1..] == m[1..];
    } else {
      var t := Set(m[1..], k, v);
      SetSumBy(m[1..], k, v, d, measure);
      var r := [m[0]] + t;
      assert r[1..] == t;
    }
  }

  /** When every update raises a measure by the item's weight and blank
      records measure zero, the records' measures add up to the total
      weight of the items. */
  lemma {:induction false} AccumulateSum<T, K, V>(m: OrderedMap<K, V>, items: seq<T>, key: T -> K, blank: K -> V, step: (V, T) -> V,
                                                  measure: V -> int, weight: T -> int)
    requires forall k :: measure(blank(k)) == 0
    requires forall v, x :: measure(step(v, x)) == measure(v) + weight(x)
    ensures SumBy(Accumulate(m, items, key, blank, step), measure) == SumBy(m, measure) + Total(items, weight)
    decreases |items|
  {
    if items != [] {
      var x := items[0];
      var k := key(x);
      SetSumBy(m, k, step(GetOr(m, k, blank(k)), x), blank(k), measure);
      AccumulateSum(Absorb(m, x, key, blank, step), items[1..], key, blank, step, measure, weight);
    }
  }

  /** The total of a concatenation. */
  lemma {:induction false} TotalAppend<T>(a: seq<T>, b: seq<T>, weight: T -> int)
    ensures Total(a + b, weight) == Total(a, weight) + Total(b, weight)
    decreases |a|
  {
    if a == [] {
      assert a + b == b;
    } else {
      assert (a + b)[1..] == a[1..] + b;
      TotalAppend(a[1..], b, weight);
    }
  }

  /** One more item of a suffix. */
  lemma AccumulateStep<T, K, V>(m: OrderedMap<K, V>, items: seq<T>, j: nat, key: T -> K, blank: K -> V, step: (V, T) -> V)
    requires j < |items|
    ensures Accumulate(m, items[j..], key, blank, step) ==
            Accumulate(Absorb(m, items[j], key, blank, step), items[j + 1..], key, blank, step)
  {
    assert items[j..][0] == items[j];
    assert items[j..][1..] == items[j + 1..];
  }

  /** A second `set` of the same key overrides the first. */
  lemma {:induction false} SetOver<K, V>(m: OrderedMap<K, V>, k: K, a: V, b: V)
    ensures Set(Set(m, k, a), k, b) == Set(m, k, b)
    decreases |m|
  {
    if m == [] {
    } else if m[0].0 == k {
      assert ([(k, a)] + m[1..])[1..] == m[1..];
    } else {
      SetOver(m[1..], k, a, b);
      assert ([m[0]] + Set(m[1..], k, a))[1..] == Set(m[1..], k, a);
    }
  }

  /** `if (!m.has(k)) m.set(k, blank)` followed by `m.set(k, step(m.get(k)!, x))`
      is one absorbed item. */
  lemma Upsert<T, K, V>(m: OrderedMap<K, V>, x: T, key: T -> K, blank: K -> V, step: (V, T) -> V)
    ensures var m1 := if HasKey(m, key(x)) then m else Set(m, key(x), blank(key(x)));
            HasKey(m1, key(x)) &&
            Set(m1, key(x), step(Get(m1, key(x)).value, x)) == Absorb(m, x, key, blank, step)
  {
    var k := key(x);
    if !HasKey(m, k) {
      SetGet(m, k, blank(k));
      SetOver(m, k, blank(k), step(blank(k), x));
    }
  }

  /** The loop form of one absorbed item of a suffix: create the record if
      the key is new, then store the updated record. */
  lemma UpsertAt<T, K, V>(m: OrderedMap<K, V>, items: seq<T>, j: nat, key: T -> K, blank: K -> V, step: (V, T) -> V)
    requires j < |items|
    ensures var k := key(items[j]);
            var m1 := if HasKey(m, k) then m else Set(m, k, blank(k));
            HasKey(m1, k) &&
            Accumulate(Set(m1, k, step(Get(m1, k).value, items[j])), items[j + 1..], key, blank, step) ==
            Accumulate(m, items[j..], key, blank, step)
  {
    AccumulateStep(m, items, j, key, blank, step);
    Upsert(m, items[j], key, blank, step);
  }
}
