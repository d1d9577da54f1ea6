/**
 * The award rules of `calculateAwards.ts` about who votes for whom: best
 * buddies and sworn enemies (the pair with the highest and the lowest
 * combined points) and one-sided love (points given but not returned).
 * Self-votes take part in none of them.
 */
module Pairs {
  import opened Options
  import opened Sequences
  import opened Text
  import opened OrderedMaps
  import opened Sorting
  import opened Records
  import opened Standings
  import opened Counters

  /** Two competitor ids in the order `[a, b].sort()` puts them. The source
      joins them with `_` and splits them again; here they stay a pair. */
  type Pair = (string, string)

  function PairOf(a: string, b: string): Pair {
    if LexLess(b, a) then (b, a) else (a, b)
  }

  lemma {:induction false} LexLessIrreflexive(a: string)
    ensures !LexLess(a, a)
    decreases |a|
  {
    if |a| > 0 {
      LexLessIrreflexive(a[1..]);
    }
  }

  /** The pair of two different ids is the same whichever voted for whom,
      and is told apart from every other pair. */
  lemma PairOfSame(a: string, b: string, x: string, y: string)
    requires a != b
    ensures PairOf(x, y) == PairOf(a, b) <==> (x, y) == (a, b) || (x, y) == (b, a)
  {
    LexLessTotal(a, b);
  }

  /** A pair puts its smaller id first. */
  lemma PairOfOrdered(a: string, b: string)
    requires a != b
    ensures LexLess(PairOf(a, b).0, PairOf(a, b).1)
  {
    LexLessTotal(a, b);
  }

  /** The submitter a vote is credited to, unless the voter voted for
      themself (`submitterId && submitterId !== vote.voterId`). */
  function OtherReceiver(lookup: OrderedMap<TrackKey, string>): Vote -> Option<string> {
    (v: Vote) => if Resolve(lookup, v).Some? && Resolve(lookup, v).value != v.voterId then Resolve(lookup, v) else None
  }

  /** The voter of a vote that counts for the pair awards. */
  function GiverToOther(lookup: OrderedMap<TrackKey, string>): Vote -> Option<string> {
    (v: Vote) => if OtherReceiver(lookup)(v).Some? then Some(v.voterId) else None
  }

  /** Who gave to whom. */
  function DirectedKey(lookup: OrderedMap<TrackKey, string>): Vote -> Option<Pair> {
    (v: Vote) => if OtherReceiver(lookup)(v).Some? then Some((v.voterId, OtherReceiver(lookup)(v).value)) else None
  }

  /** `pairKey`. */
  function PairKeyOf(lookup: OrderedMap<TrackKey, string>): Vote -> Option<Pair> {
    (v: Vote) => if OtherReceiver(lookup)(v).Some? then Some(PairOf(v.voterId, OtherReceiver(lookup)(v).value)) else None
  }

  /** `pairPoints`. */
  function PairPoints(submissions: seq<Submission>, votes: seq<Vote>): OrderedMap<Pair, int> {
    Tally([], votes, PairKeyOf(SubmissionLookup(submissions)), Points)
  }

  /** `pointsGivenToOthers`. */
  function GivenToOthers(competitors: seq<Competitor>, submissions: seq<Submission>, votes: seq<Vote>): OrderedMap<string, int> {
    Counter(competitors, votes, GiverToOther(SubmissionLookup(submissions)), Points)
  }

  /** `pointsReceivedFromOthers`. */
  function ReceivedFromOthers(competitors: seq<Competitor>, submissions: seq<Submission>, votes: seq<Vote>): OrderedMap<string, int> {
    Counter(competitors, votes, OtherReceiver(SubmissionLookup(submissions)), Points)
  }

  lemma {:induction false} PairSum(lookup: OrderedMap<TrackKey, string>, votes: seq<Vote>, a: string, b: string)
    requires a != b
    ensures SumFor(votes, PairKeyOf(lookup), Points, PairOf(a, b)) ==
            SumFor(votes, DirectedKey(lookup), Points, (a, b)) + SumFor(votes, DirectedKey(lookup), Points, (b, a))
    decreases |votes|
  {
    if votes != [] {
      var v := votes[0];
      var r := OtherReceiver(lookup)(v);
      if r.Some? {
        PairOfSame(a, b, v.voterId, r.value);
      }
      PairSum(lookup, votes[1..], a, b);
    }
  }

  /** A pair's total is what each of the two gave the other, taken
      together; and every pair holds two different ids, smaller first. */
  lemma PairPointsCombined(submissions: seq<Submission>, votes: seq<Vote>, a: string, b: string, p: Pair)
    requires a != b
    ensures var lookup := SubmissionLookup(submissions);
            GetOr(PairPoints(submissions, votes), PairOf(a, b), 0) ==
            SumFor(votes, DirectedKey(lookup), Points, (a, b)) + SumFor(votes, DirectedKey(lookup), Points, (b, a))
    ensures HasKey(PairPoints(submissions, votes), p) ==> LexLess(p.0, p.1)
  {
    var lookup := SubmissionLookup(submissions);
    TallyGet([], votes, PairKeyOf(lookup), Points, PairOf(a, b));
    PairSum(lookup, votes, a, b);
    TallyHasKey([], votes, PairKeyOf(lookup), Points, p);
    if HasKey(PairPoints(submissions, votes), p) {
      var i :| 0 <= i < |votes| && PairKeyOf(lookup)(votes[i]) == Some(p);
      PairOfOrdered(votes[i].voterId, OtherReceiver(lookup)(votes[i]).value);
    }
  }

  /** A vote for one's own submission changes none of the pair tallies. */
  lemma SelfVotesIgnored(competitors: seq<Competitor>, submissions: seq<Submission>, a: seq<Vote>, v: Vote, b: seq<Vote>)
    requires Resolve(SubmissionLookup(submissions), v) == Some(v.voterId)
    ensures PairPoints(submissions, a + [v] + b) == PairPoints(submissions, a + b)
    ensures GivenToOthers(competitors, submissions, a + [v] + b) == GivenToOthers(competitors, submissions, a + b)
    ensures ReceivedFromOthers(competitors, submissions, a + [v] + b) == ReceivedFromOthers(competitors, submissions, a + b)
    ensures DirectedPoints([], SubmissionLookup(submissions), a + [v] + b) == DirectedPoints([], SubmissionLookup(submissions), a + b)
  {
    var lookup := SubmissionLookup(submissions);
    assert OtherReceiver(lookup)(v).None?;
    PairTallySkip(a, v, b, PairKeyOf(lookup));
    CounterSkip(competitors, a, v, b, GiverToOther(lookup), Points);
    CounterSkip(competitors, a, v, b, OtherReceiver(lookup), Points);
    DirectedSkip(lookup, a, v, b);
  }

  lemma {:induction false} PairTallyAppend(m: OrderedMap<Pair, int>, a: seq<Vote>, b: seq<Vote>, key: Vote -> Option<Pair>)
    ensures Tally(m, a + b, key, Points) == Tally(Tally(m, a, key, Points), b, key, Points)
    decreases |a|
  {
    if a == [] {
      AppendEmpty(b);
    } else {
      assert (a + b)[0] == a[0] && (a + b)[1..] == a[1..] + b;
      PairTallyAppend(Bump(m, a[0], key, Points), a[1..], b, key);
    }
  }

  lemma PairTallySkip(a: seq<Vote>, v: Vote, b: seq<Vote>, key: Vote -> Option<Pair>)
    requires key(v).None?
    ensures Tally([], a + [v] + b, key, Points) == Tally([], a + b, key, Points)
  {
    PairTallyAppend([], a + [v], b, key);
    PairTallyAppend([], a, [v], key);
    PairTallyAppend([], a, b, key);
  }

  // ---------------------------------------------------------------------
  // Best buddies and sworn enemies

  function PairTotal(e: (Pair, int)): real {
    e.1 as real
  }

  /** `[...pairPoints.entries()].sort(...)[0]`: descending for the best
      buddies, ascending for the sworn enemies. */
  function ExtremePair(pairs: OrderedMap<Pair, int>, desc: bool): Option<(Pair, int)> {
    if |pairs| == 0 then None else Some(StableSort(pairs, PairTotal, desc)[0])
  }

  /** The pair chosen is the first with the highest (lowest) total. */
  lemma ExtremePairIsFirstBest(pairs: OrderedMap<Pair, int>, desc: bool)
    ensures ExtremePair(pairs, desc).Some? <==> |pairs| > 0
    ensures ExtremePair(pairs, desc).Some? ==>
              exists i | 0 <= i < |pairs| ::
                && pairs[i] == ExtremePair(pairs, desc).value
                && (forall j | 0 <= j < |pairs| :: if desc then pairs[j].1 <= pairs[i].1 else pairs[j].1 >= pairs[i].1)
                && (forall j | 0 <= j < i :: if desc then pairs[j].1 < pairs[i].1 else pairs[j].1 > pairs[i].1)
  {
    if |pairs| > 0 {
      SortHead(pairs, PairTotal, desc);
      var i := BestIndex(pairs, PairTotal, desc);
      assert forall j | 0 <= j < |pairs| :: Before(PairTotal, desc, pairs[i], pairs[j]);
    }
  }

  /** `ids[0] ? competitorMap.get(ids[0]) || null : null`. */
  function PairWinner(competitorMap: OrderedMap<string, Competitor>, id: string): Option<Competitor> {
    if id == "" then None else Get(competitorMap, id)
  }

  // ---------------------------------------------------------------------
  // One-sided love

  /** `directedPoints`: for each voter, the points they gave to each other
      submitter. */
  type Directed = OrderedMap<string, OrderedMap<string, int>>

  /** One vote's turn: the voter gets an empty inner map on first sight. */
  function Direct(d: Directed, lookup: OrderedMap<TrackKey, string>, v: Vote): Directed {
    var r := OtherReceiver(lookup)(v);
    if r.None? then d else Set(d, v.voterId, Add(GetOr(d, v.voterId, []), r.value, v.points))
  }

  function DirectedPoints(d: Directed, lookup: OrderedMap<TrackKey, string>, votes: seq<Vote>): Directed
    decreases |votes|
  {
    if |votes| == 0 then d else DirectedPoints(Direct(d, lookup, votes[0]), lookup, votes[1..])
  }

  lemma {:induction false} DirectedAppend(d: Directed, lookup: OrderedMap<TrackKey, string>, a: seq<Vote>, b: seq<Vote>)
    ensures DirectedPoints(d, lookup, a + b) == DirectedPoints(DirectedPoints(d, lookup, a), lookup, b)
    decreases |a|
  {
    if a == [] {
      AppendEmpty(b);
    } else {
      assert (a + b)[0] == a[0] && (a + b)[1..] == a[1..] + b;
      DirectedAppend(Direct(d, lookup, a[0]), lookup, a[1..], b);
    }
  }

  lemma DirectedSkip(lookup: OrderedMap<TrackKey, string>, a: seq<Vote>, v: Vote, b: seq<Vote>)
    requires OtherReceiver(lookup)(v).None?
    ensures DirectedPoints([], lookup, a + [v] + b) == DirectedPoints([], lookup, a + b)
  {
    DirectedAppend([], lookup, a + [v], b);
    DirectedAppend([], lookup, a, [v]);
    DirectedAppend([], lookup, a, b);
  }

  /** The receiver of a vote cast by `g`. */
  function TargetFor(lookup: OrderedMap<TrackKey, string>, g: string): Vote -> Option<string> {
    (v: Vote) => if v.voterId == g then OtherReceiver(lookup)(v) else None
  }

  lemma {:induction false} DirectedFor(d: Directed, lookup: OrderedMap<TrackKey, string>, votes: seq<Vote>, g: string)
    ensures GetOr(DirectedPoints(d, lookup, votes), g, []) == Tally(GetOr(d, g, []), votes, TargetFor(lookup, g), Points)
    decreases |votes|
  {
    if |votes| > 0 {
      var v := votes[0];
      var next := Direct(d, lookup, v);
      assert GetOr(next, g, []) == Bump(GetOr(d, g, []), v, TargetFor(lookup, g), Points) by {
        var r := OtherReceiver(lookup)(v);
        if r.Some? {
          if v.voterId != g {
            SetGetOther(d, v.voterId, Add(GetOr(d, v.voterId, []), r.value, v.points), g);
          } else {
            SetGet(d, g, Add(GetOr(d, g, []), r.value, v.points));
          }
        }
      }
      DirectedFor(next, lookup, votes[1..], g);
    }
  }

  lemma {:induction false} TargetSum(lookup: OrderedMap<TrackKey, string>, votes: seq<Vote>, g: string, r: string)
    ensures SumFor(votes, TargetFor(lookup, g), Points, r) == SumFor(votes, DirectedKey(lookup), Points, (g, r))
    decreases |votes|
  {
    if votes != [] {
      TargetSum(lookup, votes[1..], g, r);
    }
  }

  /** `directedPoints.get(g)?.get(r) || 0` is what `g` gave `r`. */
  lemma DirectedGet(lookup: OrderedMap<TrackKey, string>, votes: seq<Vote>, g: string, r: string)
    ensures GetOr(GetOr(DirectedPoints([], lookup, votes), g, []), r, 0) == SumFor(votes, DirectedKey(lookup), Points, (g, r))
  {
    DirectedFor([], lookup, votes, g);
    TallyGet([], votes, TargetFor(lookup, g), Points, r);
    TargetSum(lookup, votes, g, r);
  }

  /** Every giver and every inner map holds each id once. */
  predicate WellFormed(d: Directed) {
    DistinctKeys(d) && forall i | 0 <= i < |d| :: DistinctKeys(d[i].1)
  }

  lemma SetWellFormed(d: Directed, g: string, t: OrderedMap<string, int>)
    requires WellFormed(d) && DistinctKeys(t)
    ensures WellFormed(Set(d, g, t))
  {
    SetKeepsDistinct(d, g, t);
    SetEntries(d, g, t);
  }

  lemma {:induction false} SetEntries(d: Directed, g: string, t: OrderedMap<string, int>)
    requires forall i | 0 <= i < |d| :: DistinctKeys(d[i].1)
    requires DistinctKeys(t)
    ensures forall i | 0 <= i < |Set(d, g, t)| :: DistinctKeys(Set(d, g, t)[i].1)
    decreases |d|
  {
    if |d| > 0 && d[0].0 != g {
      SetEntries(d[1..], g, t);
    }
  }

  lemma {:induction false} DirectedWellFormed(d: Directed, lookup: OrderedMap<TrackKey, string>, votes: seq<Vote>)
    requires WellFormed(d)
    ensures WellFormed(DirectedPoints(d, lookup, votes))
    decreases |votes|
  {
    if votes != [] {
      var v := votes[0];
      var r := OtherReceiver(lookup)(v);
      if r.Some? {
        var inner := GetOr(d, v.voterId, []);
        if HasKey(d, v.voterId) {
          GetIsEntry(d, v.voterId);
        }
        SetKeepsDistinct(inner, r.value, GetOr(inner, r.value, 0) + v.points);
        SetWellFormed(d, v.voterId, Add(inner, r.value, v.points));
      }
      DirectedWellFormed(Direct(d, lookup, v), lookup, votes[1..]);
    }
  }

  /** One giver's `targets.forEach`, as (giver, receiver, given) triples. */
  function Row(g: string, targets: OrderedMap<string, int>): seq<(string, string, int)> {
    Map(targets, (e: (string, int)) => (g, e.0, e.1))
  }

  /** The nested `forEach` over `directedPoints`, as one sequence of triples. */
  function Flat(d: Directed): seq<(string, string, int)>
    decreases |d|
  {
    if |d| == 0 then [] else Row(d[0].0, d[0].1) + Flat(d[1..])
  }

  /** `given - received` for one triple. */
  function Asymmetry(d: Directed, t: (string, string, int)): int {
    t.2 - GetOr(GetOr(d, t.1, []), t.0, 0)
  }

  lemma {:induction false} FlatEntry(d: Directed, t: (string, string, int))
    requires WellFormed(d) && t in Flat(d)
    ensures t.2 == GetOr(GetOr(d, t.0, []), t.1, 0)
    decreases |d|
  {
    var row := Row(d[0].0, d[0].1);
    if t in row {
      var j :| 0 <= j < |row| && row[j] == t;
      GetAt(d, 0);
      GetAt(d[0].1, j);
    } else {
      assert t in Flat(d[1..]);
      DistinctKeysTail(d);
      assert WellFormed(d[1..]) by {
        forall i | 0 <= i < |d[1..]| ensures DistinctKeys(d[1..][i].1) {
          assert d[1..][i] == d[i + 1];
        }
      }
      FlatEntry(d[1..], t);
      FlatGiver(d[1..], t);
      var i :| 0 <= i < |d[1..]| && d[1..][i].0 == t.0;
      assert d[i + 1].0 == t.0;
      assert d[0].0 != t.0;
    }
  }

  /** Every triple's giver is a key of the map. */
  lemma {:induction false} FlatGiver(d: Directed, t: (string, string, int))
    requires t in Flat(d)
    ensures exists i | 0 <= i < |d| :: d[i].0 == t.0
    decreases |d|
  {
    var row := Row(d[0].0, d[0].1);
    if t in row {
      assert d[0].0 == t.0;
    } else {
      FlatGiver(d[1..], t);
      var i :| 0 <= i < |d[1..]| && d[1..][i].0 == t.0;
      assert d[i + 1].0 == t.0;
    }
  }

  /** The asymmetry of a triple is what the giver gave the receiver minus
      what the receiver gave back. */
  lemma AsymmetryMeaning(submissions: seq<Submission>, votes: seq<Vote>, t: (string, string, int))
    requires t in Flat(DirectedPoints([], SubmissionLookup(submissions), votes))
    ensures var lookup := SubmissionLookup(submissions);
            Asymmetry(DirectedPoints([], lookup, votes), t) ==
            SumFor(votes, DirectedKey(lookup), Points, (t.0, t.1)) - SumFor(votes, DirectedKey(lookup), Points, (t.1, t.0))
  {
    var lookup := SubmissionLookup(submissions);
    var d := DirectedPoints([], lookup, votes);
    DirectedWellFormed([], lookup, votes);
    FlatEntry(d, t);
    DirectedGet(lookup, votes, t.0, t.1);
    DirectedGet(lookup, votes, t.1, t.0);
  }

  /** `maxAsymmetryByPerson` after the nested loop over the triples. */
  function RaiseMax(m: OrderedMap<string, int>, d: Directed, ts: seq<(string, string, int)>): OrderedMap<string, int>
    decreases |ts|
  {
    if |ts| == 0 then m
    else
      var a := Asymmetry(d, ts[0]);
      RaiseMax(if a > GetOr(m, ts[0].0, 0) then Set(m, ts[0].0, a) else m, d, ts[1..])
  }

  function MaxAsymmetryByPerson(competitors: seq<Competitor>, submissions: seq<Submission>, votes: seq<Vote>): OrderedMap<string, int> {
    var d := DirectedPoints([], SubmissionLookup(submissions), votes);
    RaiseMax(Zeroed(competitors), d, Flat(d))
  }

  /** Each giver ends with the larger of their start value and their
      largest asymmetry, which is one of the two. */
  lemma {:induction false} RaiseMaxGet(m: OrderedMap<string, int>, d: Directed, ts: seq<(string, string, int)>, g: string)
    ensures var r := GetOr(RaiseMax(m, d, ts), g, 0);
            && r >= GetOr(m, g, 0)
            && (forall i | 0 <= i < |ts| && ts[i].0 == g :: r >= Asymmetry(d, ts[i]))
            && (r == GetOr(m, g, 0) || exists i | 0 <= i < |ts| && ts[i].0 == g :: r == Asymmetry(d, ts[i]))
    decreases |ts|
  {
    if ts != [] {
      var t := ts[0];
      var a := Asymmetry(d, t);
      var next := if a > GetOr(m, t.0, 0) then Set(m, t.0, a) else m;
      if a > GetOr(m, t.0, 0) {
        if t.0 == g {
          SetGet(m, g, a);
        } else {
          SetGetOther(m, t.0, a, g);
        }
      }
      RaiseMaxGet(next, d, ts[1..], g);
      var r := GetOr(RaiseMax(m, d, ts), g, 0);
      if r != GetOr(next, g, 0) {
        var i :| 0 <= i < |ts[1..]| && ts[1..][i].0 == g && r == Asymmetry(d, ts[1..][i]);
        assert ts[i + 1] == ts[1..][i];
      }
      forall i | 0 <= i < |ts| && ts[i].0 == g ensures r >= Asymmetry(d, ts[i]) {
        if i > 0 {
          assert ts[i] == ts[1..][i - 1];
        }
      }
    }
  }

  lemma {:induction false} RaiseMaxNonNegative(m: OrderedMap<string, int>, d: Directed, ts: seq<(string, string, int)>)
    requires forall i | 0 <= i < |m| :: m[i].1 >= 0
    ensures var r := RaiseMax(m, d, ts);
            forall i | 0 <= i < |r| :: r[i].1 >= 0
    decreases |ts|
  {
    if ts != [] {
      var t := ts[0];
      var a := Asymmetry(d, t);
      var next := if a > GetOr(m, t.0, 0) then Set(m, t.0, a) else m;
      if a > GetOr(m, t.0, 0) {
        if HasKey(m, t.0) {
          GetIsEntry(m, t.0);
          var k :| 0 <= k < |m| && m[k] == (t.0, Get(m, t.0).value);
          assert m[k].1 >= 0;
        }
        SetNonNegative(m, t.0, a);
      }
      assert forall i | 0 <= i < |next| :: next[i].1 >= 0;
      RaiseMaxNonNegative(next, d, ts[1..]);
      assert RaiseMax(m, d, ts) == RaiseMax(next, d, ts[1..]);
    }
  }

  /** Every value of `maxAsymmetryByPerson` is at least zero; a giver's value
      is their largest asymmetry when that is positive, zero otherwise. */
  lemma MaxAsymmetryFacts(competitors: seq<Competitor>, submissions: seq<Submission>, votes: seq<Vote>, g: string)
    ensures var m := MaxAsymmetryByPerson(competitors, submissions, votes);
            forall i | 0 <= i < |m| :: m[i].1 >= 0
    ensures var d := DirectedPoints([], SubmissionLookup(submissions), votes);
            var ts := Flat(d);
            var r := GetOr(MaxAsymmetryByPerson(competitors, submissions, votes), g, 0);
            && r >= 0
            && (forall i | 0 <= i < |ts| && ts[i].0 == g :: r >= Asymmetry(d, ts[i]))
            && (r == 0 || exists i | 0 <= i < |ts| && ts[i].0 == g :: r == Asymmetry(d, ts[i]))
  {
    var d := DirectedPoints([], SubmissionLookup(submissions), votes);
    ZeroedFacts(competitors, g);
    RaiseMaxNonNegative(Zeroed(competitors), d, Flat(d));
    RaiseMaxGet(Zeroed(competitors), d, Flat(d), g);
  }

  /** `maxAsymmetry` with `oneSidedGiver` and `oneSidedReceiver`. */
  datatype Lopsided = Lopsided(gap: int, pair: Option<Pair>)

  /** The second nested loop: a strictly larger asymmetry replaces the best so far. */
  function Widest(best: Lopsided, d: Directed, ts: seq<(string, string, int)>): Lopsided
    decreases |ts|
  {
    if |ts| == 0 then best
    else
      var a := Asymmetry(d, ts[0]);
      Widest(if a > best.gap then Lopsided(a, Some((ts[0].0, ts[0].1))) else best, d, ts[1..])
  }

  function OneSidedLove(submissions: seq<Submission>, votes: seq<Vote>): Lopsided {
    var d := DirectedPoints([], SubmissionLookup(submissions), votes);
    Widest(Lopsided(0, None), d, Flat(d))
  }

  /** The best so far either stays, or is replaced by the first triple with
      the largest asymmetry, which beats it. */
  lemma {:induction false} WidestFacts(best: Lopsided, d: Directed, ts: seq<(string, string, int)>)
    ensures var r := Widest(best, d, ts);
            && r.gap >= best.gap
            && (forall i | 0 <= i < |ts| :: r.gap >= Asymmetry(d, ts[i]))
            && (r == best ||
                exists i | 0 <= i < |ts| ::
                  && r == Lopsided(Asymmetry(d, ts[i]), Some((ts[i].0, ts[i].1))) && r.gap > best.gap
                  && forall j | 0 <= j < i :: Asymmetry(d, ts[j]) < r.gap)
    decreases |ts|
  {
    if ts != [] {
      var t := ts[0];
      var a := Asymmetry(d, t);
      var next := if a > best.gap then Lopsided(a, Some((t.0, t.1))) else best;
      WidestFacts(next, d, ts[1..]);
      var r := Widest(best, d, ts);
      forall i | 0 <= i < |ts| ensures r.gap >= Asymmetry(d, ts[i]) {
        if i > 0 {
          assert ts[i] == ts[1..][i - 1];
        }
      }
      if r != next {
        var i :| 0 <= i < |ts[1..]| &&
                 r == Lopsided(Asymmetry(d, ts[1..][i]), Some((ts[1..][i].0, ts[1..][i].1))) && r.gap > next.gap &&
                 forall j | 0 <= j < i :: Asymmetry(d, ts[1..][j]) < r.gap;
        assert ts[i + 1] == ts[1..][i];
        forall j | 0 <= j < i + 1 ensures Asymmetry(d, ts[j]) < r.gap {
          if j > 0 {
            assert ts[j] == ts[1..][j - 1];
          }
        }
      } else if r != best {
        assert r == Lopsided(Asymmetry(d, ts[0]), Some((ts[0].0, ts[0].1)));
      }
    }
  }

  /** The headline of one-sided love: the largest asymmetry, never below
      zero; a giver and receiver are named exactly when it is positive, and
      they are the first triple that reaches it. */
  lemma OneSidedLoveFacts(submissions: seq<Submission>, votes: seq<Vote>)
    ensures var d := DirectedPoints([], SubmissionLookup(submissions), votes);
            var ts := Flat(d);
            var r := OneSidedLove(submissions, votes);
            && r.gap >= 0
            && (forall i | 0 <= i < |ts| :: r.gap >= Asymmetry(d, ts[i]))
            && (r.pair.Some? <==> r.gap > 0)
            && (r.pair.Some? ==>
                  exists i | 0 <= i < |ts| ::
                    && (ts[i].0, ts[i].1) == r.pair.value && Asymmetry(d, ts[i]) == r.gap
                    && forall j | 0 <= j < i :: Asymmetry(d, ts[j]) < r.gap)
  {
    var d := DirectedPoints([], SubmissionLookup(submissions), votes);
    WidestFacts(Lopsided(0, None), d, Flat(d));
  }

  /** `ConsAppend`: the step of a nested loop over `s[j..] + rest`. */
  lemma ConsAppend<T>(s: seq<T>, j: nat, rest: seq<T>)
    requires j < |s|
    ensures (s[j..] + rest)[0] == s[j] && (s[j..] + rest)[1..] == s[j + 1..] + rest
  {
  }

  lemma FlatStep(d: Directed, i: nat)
    requires i < |d|
    ensures Flat(d[i..]) == Row(d[i].0, d[i].1)[0..] + Flat(d[i + 1..])
  {
    DropHead(d, i);
  }

  lemma RowEnd(g: string, t: OrderedMap<string, int>, rest: seq<(string, string, int)>)
    ensures Row(g, t)[|t|..] + rest == rest
  {
  }

  /** The nested loop that fills `maxAsymmetryByPerson`. */
  method RaiseMaxLoop(m0: OrderedMap<string, int>, d: Directed) returns (m: OrderedMap<string, int>)
    ensures m == RaiseMax(m0, d, Flat(d))
  {
    m := m0;
    var i := 0;
    while i < |d|
      invariant 0 <= i <= |d|
      invariant RaiseMax(m, d, Flat(d[i..])) == RaiseMax(m0, d, Flat(d))
    {
      var giver := d[i].0;
      var targets := d[i].1;
      FlatStep(d, i);
      var j := 0;
      while j < |targets|
        invariant 0 <= j <= |targets|
        invariant RaiseMax(m, d, Row(giver, targets)[j..] + Flat(d[i + 1..])) == RaiseMax(m0, d, Flat(d))
      {
        ConsAppend(Row(giver, targets), j, Flat(d[i + 1..]));
        var receiver := targets[j].0;
        var given := targets[j].1;
        var received := GetOr(GetOr(d, receiver, []), giver, 0);
        var asymmetry := given - received;
        if asymmetry > GetOr(m, giver, 0) {
          m := Set(m, giver, asymmetry);
        }
        j := j + 1;
      }
      RowEnd(giver, targets, Flat(d[i + 1..]));
      i := i + 1;
    }
    assert d[i..] == [];
  }

  /** The nested loop that finds `maxAsymmetry` and its two ids. */
  method WidestLoop(d: Directed) returns (best: Lopsided)
    ensures best == Widest(Lopsided(0, None), d, Flat(d))
  {
    var maxAsymmetry := 0;
    var pair: Option<Pair> := None;
    var i := 0;
    while i < |d|
      invariant 0 <= i <= |d|
      invariant Widest(Lopsided(maxAsymmetry, pair), d, Flat(d[i..])) == Widest(Lopsided(0, None), d, Flat(d))
    {
      var giver := d[i].0;
      var targets := d[i].1;
      FlatStep(d, i);
      var j := 0;
      while j < |targets|
        invariant 0 <= j <= |targets|
        invariant Widest(Lopsided(maxAsymmetry, pair), d, Row(giver, targets)[j..] + Flat(d[i + 1..])) ==
                  Widest(Lopsided(0, None), d, Flat(d))
      {
        ConsAppend(Row(giver, targets), j, Flat(d[i + 1..]));
        var receiver := targets[j].0;
        var given := targets[j].1;
        var received := GetOr(GetOr(d, receiver, []), giver, 0);
        var asymmetry := given - received;
        if asymmetry > maxAsymmetry {
          maxAsymmetry := asymmetry;
          pair := Some((giver, receiver));
        }
        j := j + 1;
      }
      RowEnd(giver, targets, Flat(d[i + 1..]));
      i := i + 1;
    }
    assert d[i..] == [];
    best := Lopsided(maxAsymmetry, pair);
  }

  /** The first loop of the rule, which builds `directedPoints`. */
  method DirectedLoop(lookup: OrderedMap<TrackKey, string>, votes: seq<Vote>) returns (d: Directed)
    ensures d == DirectedPoints([], lookup, votes)
  {
    d := [];
    var i := 0;
    while i < |votes|
      invariant 0 <= i <= |votes|
      invariant DirectedPoints(d, lookup, votes[i..]) == DirectedPoints([], lookup, votes)
    {
      DropHead(votes, i);
      var v := votes[i];
      var submitter := Resolve(lookup, v);
      if submitter.Some? && submitter.value != v.voterId {
        var voterMap := GetOr(d, v.voterId, []);
        d := Set(d, v.voterId, Add(voterMap, submitter.value, v.points));
      }
      i := i + 1;
    }
  }
}
