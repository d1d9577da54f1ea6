/** Array helpers the engine uses everywhere: `filter`, `slice` and counting. */
module Sequences {

  /** `s.filter(p)`. */
  function Filter<T>(s: seq<T>, p: T -> bool): (r: seq<T>)
    ensures |r| <= |s|
    ensures forall i | 0 <= i < |r| :: p(r[i])
    ensures multiset(r) <= multiset(s)
    decreases |s|
  {
    if |s| == 0 then []
    else
      var rest := Filter(s[1..], p);
      assert s == [s[0]] + s[1..];
      if p(s[0]) then [s[0]] + rest else rest
  }

  /** Filtering a concatenation filters each part. */
  lemma {:induction false} FilterAppend<T>(a: seq<T>, b: seq<T>, p: T -> bool)
    ensures Filter(a + b, p) == Filter(a, p) + Filter(b, p)
    decreases |a|
  {
    if a == [] {
      assert a + b == b;
    } else {
      assert (a + b)[0] == a[0];
      assert (a + b)[1..] == a[1..] + b;
      FilterAppend(a[1..], b, p);
    }
  }

  /** An element that passes the test survives filtering. */
  lemma {:induction false} FilterKeeps<T>(s: seq<T>, p: T -> bool, x: T)
    requires x in s && p(x)
    ensures x in Filter(s, p)
    decreases |s|
  {
    if s[0] != x {
      FilterKeeps(s[1..], p, x);
    }
  }

  /** Whatever survives filtering was in the sequence and passes the test. */
  lemma {:induction false} FilterElements<T>(s: seq<T>, p: T -> bool, x: T)
    requires x in Filter(s, p)
    ensures x in s && p(x)
    decreases |s|
  {
    if !(p(s[0]) && s[0] == x) {
      FilterElements(s[1..], p, x);
    }
  }

  /** One more item of a suffix: filtered out, or kept in front. */
  lemma FilterStep<T>(s: seq<T>, p: T -> bool, j: nat)
    requires j < |s|
    ensures Filter(s[j..], p) == if p(s[j]) then [s[j]] + Filter(s[j + 1..], p) else Filter(s[j + 1..], p)
  {
    assert s[j..][0] == s[j];
    assert s[j..][1..] == s[j + 1..];
  }

  /** `s.map(f)`. */
  function Map<A, B>(s: seq<A>, f: A -> B): (r: seq<B>)
    ensures |r| == |s| && forall i | 0 <= i < |s| :: r[i] == f(s[i])
  {
    seq(|s|, i requires 0 <= i < |s| => f(s[i]))
  }

  /** Mapping one more element of a prefix. */
  lemma MapSnoc<A, B>(s: seq<A>, f: A -> B, k: nat)
    requires k < |s|
    ensures Map(s[..k + 1], f) == Map(s[..k], f) + [f(s[k])]
  {
  }

  /** Mapping a concatenation maps each part. */
  lemma MapAppend<A, B>(a: seq<A>, b: seq<A>, f: A -> B)
    ensures Map(a + b, f) == Map(a, f) + Map(b, f)
  {
  }

  /** Mapping with `f` and then with a `g` that undoes `f` on every element
      gives the sequence back. */
  lemma MapInverse<A, B>(s: seq<A>, f: A -> B, g: B -> A)
    requires forall i | 0 <= i < |s| :: g(f(s[i])) == s[i]
    ensures Map(Map(s, f), g) == s
  {
  }

  /** The number of elements that pass the test. */
  function Count<T>(s: seq<T>, p: T -> bool): nat {
    |Filter(s, p)|
  }

  /** `s.slice(0, n)`: a negative `n` counts back from the end, a large `n`
      takes everything. */
  function Take<T>(s: seq<T>, n: int): (r: seq<T>)
    ensures r <= s
    ensures n >= 0 ==> |r| == if n <= |s| then n else |s|
    ensures n < 0 ==> |r| == if |s| + n >= 0 then |s| + n else 0
  {
    if n >= 0 then (if n <= |s| then s[..n] else s)
    else if |s| + n >= 0 then s[..|s| + n]
    else []
  }

  /** `s.slice(n)` for `n >= 0`. */
  function Drop<T>(s: seq<T>, n: nat): (r: seq<T>)
    ensures Take(s, n) + r == s
  {
    if n <= |s| then s[n..] else []
  }

  /** Element `i` of `s.slice(n)` is element `n + i` of `s`. */
  lemma DropAt<T>(s: seq<T>, n: nat, i: nat)
    requires n + i < |s|
    ensures i < |Drop(s, n)| && Drop(s, n)[i] == s[n + i]
  {
  }

  /** The sum of a sequence of reals, `reduce((a, b) => a + b, 0)`. */
  function SumReals(s: seq<real>): real
    decreases |s|
  {
    if |s| == 0 then 0.0 else s[0] + SumReals(s[1..])
  }

  lemma {:induction false} SumRealsAppend(a: seq<real>, b: seq<real>)
    ensures SumReals(a + b) == SumReals(a) + SumReals(b)
    decreases |a|
  {
    if a == [] {
      assert a + b == b;
    } else {
      assert (a + b)[0] == a[0];
      assert (a + b)[1..] == a[1..] + b;
      SumRealsAppend(a[1..], b);
    }
  }

  lemma {:induction false} SumRealsNonNegative(s: seq<real>)
    requires forall i | 0 <= i < |s| :: s[i] >= 0.0
    ensures SumReals(s) >= 0.0
    decreases |s|
  {
    if s != [] {
      SumRealsNonNegative(s[1..]);
    }
  }

  // Small facts about concatenation, proved here so that longer proofs can
  // call them instead of reasoning about sequence equality themselves.

  lemma AppendAssoc<T>(a: seq<T>, b: seq<T>, c: seq<T>)
    ensures a + b + c == a + (b + c)
  {
  }

  lemma AppendEmpty<T>(a: seq<T>)
    ensures a + [] == a && [] + a == a
  {
  }

  /** The suffix from `i` starts with `s[i]`, and its own suffix is the
      suffix from `i + 1`. */
  lemma DropHead<T>(s: seq<T>, i: nat)
    requires i < |s|
    ensures s[i..][0] == s[i] && s[i..][1..] == s[i + 1..]
  {
  }

  /** A sequence built from a head and a tail gives them back. */
  lemma ConsParts<T>(x: T, s: seq<T>)
    ensures ([x] + s)[0] == x && ([x] + s)[1..] == s
  {
  }

  /** A suffix read in full. */
  lemma SliceFull<T>(s: seq<T>, i: nat)
    requires i <= |s|
    ensures s[i..|s|] == s[i..] && s[..|s|] == s
  {
  }

  /** The suffix from `i`, cut around position `k`. */
  lemma SplitAround<T>(s: seq<T>, i: nat, k: nat)
    requires i <= k < |s|
    ensures s[i..] == s[i..k] + [s[k]] + s[k + 1..]
  {
  }

  /** Appending the only element of a one-element sequence. */
  lemma AppendOne<T>(xs: seq<T>, s: seq<T>)
    requires |s| == 1
    ensures xs + [s[0]] == xs + s
  {
  }

  lemma HeadTail<T>(s: seq<T>)
    requires |s| > 0
    ensures [s[0]] + s[1..] == s
  {
  }

  /** Putting the head back in front of the tail. */
  lemma AppendHead<T>(xs: seq<T>, s: seq<T>)
    requires s != []
    ensures xs + [s[0]] + s[1..] == xs + s
  {
  }

  /** A window of `s` that reads `a + b` reads `a` and then `b`. */
  lemma SliceParts<T>(s: seq<T>, i: nat, a: seq<T>, b: seq<T>)
    requires i + |a + b| <= |s| && s[i..i + |a + b|] == a + b
    ensures s[i..i + |a|] == a && s[i + |a|..i + |a + b|] == b
  {
    assert s[i..i + |a|] == s[i..i + |a + b|][..|a|];
    assert s[i + |a|..i + |a + b|] == s[i..i + |a + b|][|a|..];
  }

  lemma SliceAt<T>(s: seq<T>, i: nat, a: seq<T>, j: nat)
    requires i + |a| <= |s| && s[i..i + |a|] == a && j < |a|
    ensures s[i + j] == a[j]
  {
    assert s[i..i + |a|][j] == s[i + j];
  }

  /** A suffix of `s` that reads `a + b` continues with `b` after `a`. */
  lemma SuffixParts<T>(s: seq<T>, i: nat, a: seq<T>, b: seq<T>)
    requires i <= |s| && s[i..] == a + b
    ensures i + |a| <= |s| && s[i..i + |a|] == a && s[i + |a|..] == b
  {
    assert s[i..i + |a|] == s[i..][..|a|];
    assert s[i + |a|..] == s[i..][|a|..];
  }
}
