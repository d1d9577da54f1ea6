/**
 * The award rules of `calculateAwards.ts` about finishing positions: the
 * most consistent competitor (smallest variance of positions) and the fall
 * from grace and redemption arc (average position in the later half of the
 * rounds against the earlier half).
 */
module Positions {
  import opened Options
  import opened Sequences
  import opened OrderedMaps
  import opened Sorting
  import opened Records
  import opened Standings
  import opened Counters

  function SumInts(s: seq<int>): int
    decreases |s|
  {
    if |s| == 0 then 0 else s[0] + SumInts(s[1..])
  }

  lemma {:induction false} SumIntsAppend(a: seq<int>, b: seq<int>)
    ensures SumInts(a + b) == SumInts(a) + SumInts(b)
    decreases |a|
  {
    if a == [] {
      AppendEmpty(b);
    } else {
      assert (a + b)[0] == a[0] && (a + b)[1..] == a[1..] + b;
      SumIntsAppend(a[1..], b);
    }
  }

  /** The positions (1-based) at which `id` stands from index `k` on. */
  function PlacesFrom(standings: seq<Standing>, id: string, k: nat): seq<int>
    requires k <= |standings|
    decreases |standings| - k
  {
    if k == |standings| then []
    else (if standings[k].competitor.id == id then [k + 1] else []) + PlacesFrom(standings, id, k + 1)
  }

  /** The reference list of one competitor's positions, round after round. */
  function PositionsOf(results: seq<RoundResult>, id: string): seq<int>
    decreases |results|
  {
    if |results| == 0 then [] else PlacesFrom(results[0].standings, id, 0) + PositionsOf(results[1..], id)
  }

  lemma PositionsOfCons(r: RoundResult, rest: seq<RoundResult>, id: string)
    ensures PositionsOf([r] + rest, id) == PlacesFrom(r.standings, id, 0) + PositionsOf(rest, id)
  {
    ConsParts(r, rest);
  }

  lemma {:induction false} PlacesFromBounds(standings: seq<Standing>, id: string, k: nat)
    requires k <= |standings|
    ensures forall i | 0 <= i < |PlacesFrom(standings, id, k)| :: k < PlacesFrom(standings, id, k)[i] <= |standings|
    decreases |standings| - k
  {
    if k < |standings| {
      PlacesFromBounds(standings, id, k + 1);
    }
  }

  /** Every position is a place in its round's standings, counted from 1. */
  lemma {:induction false} PositionsOfBounds(results: seq<RoundResult>, id: string)
    ensures forall i | 0 <= i < |PositionsOf(results, id)| :: PositionsOf(results, id)[i] >= 1
    decreases |results|
  {
    if results != [] {
      PlacesFromBounds(results[0].standings, id, 0);
      PositionsOfBounds(results[1..], id);
    }
  }

  // ---------------------------------------------------------------------
  // 11. Most consistent

  type PositionLists = OrderedMap<string, seq<int>>

  /** `positions.push(index + 1)` on `positionsByCompetitor.get(id) || []`. */
  function Place(p: PositionLists, id: string, pos: int): PositionLists {
    Set(p, id, GetOr(p, id, []) + [pos])
  }

  /** `result.standings.forEach((standing, index) => …)` from index `k` on. */
  function PlaceFrom(p: PositionLists, standings: seq<Standing>, k: nat): PositionLists
    requires k <= |standings|
    decreases |standings| - k
  {
    if k == |standings| then p else PlaceFrom(Place(p, standings[k].competitor.id, k + 1), standings, k + 1)
  }

  function PositionsIn(p: PositionLists, results: seq<RoundResult>): PositionLists
    decreases |results|
  {
    if |results| == 0 then p else PositionsIn(PlaceFrom(p, results[0].standings, 0), results[1..])
  }

  /** `positionsByCompetitor`. */
  function PositionsByCompetitor(results: seq<RoundResult>): PositionLists {
    PositionsIn([], results)
  }

  lemma {:induction false} PlaceFromGet(p: PositionLists, standings: seq<Standing>, k: nat, id: string)
    requires k <= |standings|
    ensures GetOr(PlaceFrom(p, standings, k), id, []) == GetOr(p, id, []) + PlacesFrom(standings, id, k)
    ensures DistinctKeys(p) ==> DistinctKeys(PlaceFrom(p, standings, k))
    decreases |standings| - k
  {
    if k == |standings| {
      AppendEmpty(GetOr(p, id, []));
    } else {
      var x := standings[k].competitor.id;
      var next := Place(p, x, k + 1);
      if x == id {
        SetGet(p, id, GetOr(p, id, []) + [k + 1]);
      } else {
        SetGetOther(p, x, GetOr(p, x, []) + [k + 1], id);
        AppendEmpty(PlacesFrom(standings, id, k + 1));
      }
      if DistinctKeys(p) {
        SetKeepsDistinct(p, x, GetOr(p, x, []) + [k + 1]);
      }
      PlaceFromGet(next, standings, k + 1, id);
      AppendAssoc(GetOr(p, id, []), if x == id then [k + 1] else [], PlacesFrom(standings, id, k + 1));
    }
  }

  lemma {:induction false} PositionsInGet(p: PositionLists, results: seq<RoundResult>, id: string)
    ensures GetOr(PositionsIn(p, results), id, []) == GetOr(p, id, []) + PositionsOf(results, id)
    ensures DistinctKeys(p) ==> DistinctKeys(PositionsIn(p, results))
    decreases |results|
  {
    if results == [] {
      AppendEmpty(GetOr(p, id, []));
    } else {
      PlaceFromGet(p, results[0].standings, 0, id);
      PositionsInGet(PlaceFrom(p, results[0].standings, 0), results[1..], id);
      AppendAssoc(GetOr(p, id, []), PlacesFrom(results[0].standings, id, 0), PositionsOf(results[1..], id));
    }
  }

  /** Each competitor's list holds their positions, in the order of the
      rounds, and each competitor has one list. */
  lemma PositionsByCompetitorGet(results: seq<RoundResult>, id: string)
    ensures GetOr(PositionsByCompetitor(results), id, []) == PositionsOf(results, id)
    ensures DistinctKeys(PositionsByCompetitor(results))
  {
    PositionsInGet([], results, id);
  }

  /** `positions.reduce((a, b) => a + b, 0) / positions.length`. */
  function Mean(s: seq<int>): real
    requires |s| > 0
  {
    SumInts(s) as real / |s| as real
  }

  /** `positions.reduce((sum, p) => sum + Math.pow(p - avg, 2), 0)`. */
  function SquaredDeviation(s: seq<int>, avg: real): real
    decreases |s|
  {
    if |s| == 0 then 0.0 else (s[0] as real - avg) * (s[0] as real - avg) + SquaredDeviation(s[1..], avg)
  }

  /** The population variance of the positions. */
  function Variance(s: seq<int>): real
    requires |s| > 0
  {
    SquaredDeviation(s, Mean(s)) / |s| as real
  }

  lemma {:induction false} SquaredDeviationNonNegative(s: seq<int>, avg: real)
    ensures SquaredDeviation(s, avg) >= 0.0
    decreases |s|
  {
    if s != [] {
      var d := s[0] as real - avg;
      assert d * d >= 0.0;
      SquaredDeviationNonNegative(s[1..], avg);
    }
  }

  lemma {:induction false} ConstantSum(s: seq<int>, c: int)
    requires forall i | 0 <= i < |s| :: s[i] == c
    ensures SumInts(s) == |s| * c
    ensures SquaredDeviation(s, c as real) == 0.0
    decreases |s|
  {
    if s != [] {
      ConstantSum(s[1..], c);
    }
  }

  /** Variance is never negative, and a competitor who always finishes in
      the same place has none. */
  lemma VarianceFacts(s: seq<int>, c: int)
    requires |s| > 0
    ensures Variance(s) >= 0.0
    ensures (forall i | 0 <= i < |s| :: s[i] == c) ==> Mean(s) == c as real && Variance(s) == 0.0
  {
    SquaredDeviationNonNegative(s, Mean(s));
    if forall i | 0 <= i < |s| :: s[i] == c {
      ConstantSum(s, c);
      assert SumInts(s) as real == |s| as real * c as real;
    }
  }

  /** `varianceByCompetitor`: a variance for each list of five or more positions. */
  function Variances(v: OrderedMap<string, real>, p: PositionLists): OrderedMap<string, real>
    decreases |p|
  {
    if |p| == 0 then v
    else Variances(if |p[0].1| >= 5 then Set(v, p[0].0, Variance(p[0].1)) else v, p[1..])
  }

  function VarianceByCompetitor(results: seq<RoundResult>): OrderedMap<string, real> {
    Variances([], PositionsByCompetitor(results))
  }

  lemma {:induction false} VariancesGet(v: OrderedMap<string, real>, p: PositionLists, id: string)
    requires DistinctKeys(p)
    ensures Get(Variances(v, p), id) ==
            if |GetOr(p, id, [])| >= 5 then Some(Variance(GetOr(p, id, []))) else Get(v, id)
    decreases |p|
  {
    if p != [] {
      var next := if |p[0].1| >= 5 then Set(v, p[0].0, Variance(p[0].1)) else v;
      DistinctKeysTail(p);
      VariancesGet(next, p[1..], id);
      if p[0].0 == id {
        if |p[0].1| >= 5 {
          SetGet(v, id, Variance(p[0].1));
        }
        assert !HasKey(p[1..], id) by {
          if HasKey(p[1..], id) {
            GetIsEntry(p[1..], id);
            assert false;
          }
        }
      } else if |p[0].1| >= 5 {
        SetGetOther(v, p[0].0, Variance(p[0].1), id);
      }
    }
  }

  /** Exactly the competitors with five or more positions get a variance:
      that of their positions, never negative. */
  lemma ConsistencyFacts(results: seq<RoundResult>, id: string)
    ensures var ps := PositionsOf(results, id);
            var v := Get(VarianceByCompetitor(results), id);
            && (v.Some? <==> |ps| >= 5)
            && (v.Some? ==> v.value == Variance(ps) && v.value >= 0.0)
  {
    PositionsByCompetitorGet(results, id);
    VariancesGet([], PositionsByCompetitor(results), id);
    var ps := PositionsOf(results, id);
    if |ps| >= 5 {
      VarianceFacts(ps, 0);
    }
  }

  /** The nested loop that builds `positionsByCompetitor`. */
  method PositionsLoop(results: seq<RoundResult>) returns (p: PositionLists)
    ensures p == PositionsByCompetitor(results)
  {
    p := [];
    var i := 0;
    while i < |results|
      invariant 0 <= i <= |results|
      invariant PositionsIn(p, results[i..]) == PositionsByCompetitor(results)
    {
      DropHead(results, i);
      var standings := results[i].standings;
      var index := 0;
      while index < |standings|
        invariant 0 <= index <= |standings|
        invariant PositionsIn(PlaceFrom(p, standings, index), results[i + 1..]) == PositionsByCompetitor(results)
      {
        var id := standings[index].competitor.id;
        var positions := GetOr(p, id, []);
        positions := positions + [index + 1];
        p := Set(p, id, positions);
        index := index + 1;
      }
      i := i + 1;
    }
  }

  /** The loop that fills `varianceByCompetitor`. */
  method VariancesLoop(p: PositionLists) returns (v: OrderedMap<string, real>)
    ensures v == Variances([], p)
  {
    v := [];
    var i := 0;
    while i < |p|
      invariant 0 <= i <= |p|
      invariant Variances(v, p[i..]) == Variances([], p)
    {
      DropHead(p, i);
      var positions := p[i].1;
      if |positions| >= 5 {
        var avg := SumInts(positions) as real / |positions| as real;
        var variance := SquaredDeviation(positions, avg) / |positions| as real;
        v := Set(v, p[i].0, variance);
      }
      i := i + 1;
    }
  }

  // ---------------------------------------------------------------------
  // 13. Fall from grace and 14. redemption arc

  /** `new Date(round.created).getTime()`, as milliseconds. */
  function RoundTime(timeOf: string -> int): Round -> real {
    (r: Round) => timeOf(r.created) as real
  }

  /** `sortedRounds`: the rounds in order of creation. */
  function SortedRounds(rounds: seq<Round>, timeOf: string -> int): seq<Round> {
    StableSort(rounds, RoundTime(timeOf), false)
  }

  /** `firstHalfRounds`: the ids of the earlier `floor(n / 2)` rounds. */
  function FirstHalfIds(rounds: seq<Round>, timeOf: string -> int): seq<string> {
    Map(SortedRounds(rounds, timeOf)[..|rounds| / 2], RoundId)
  }

  /** The first half holds `floor(n / 2)` rounds, none created later than any
      round of the second half. */
  lemma HalfSplit(rounds: seq<Round>, timeOf: string -> int)
    ensures var sorted := SortedRounds(rounds, timeOf);
            var n := |rounds| / 2;
            && |FirstHalfIds(rounds, timeOf)| == n
            && multiset(sorted) == multiset(rounds)
            && (forall i | 0 <= i < n :: FirstHalfIds(rounds, timeOf)[i] == sorted[i].id)
            && (forall i, j | 0 <= i < n <= j < |rounds| :: timeOf(sorted[i].created) <= timeOf(sorted[j].created))
  {
    var sorted := SortedRounds(rounds, timeOf);
    forall i, j | 0 <= i < |rounds| / 2 <= j < |rounds|
      ensures timeOf(sorted[i].created) <= timeOf(sorted[j].created)
    {
      assert Before(RoundTime(timeOf), false, sorted[i], sorted[j]);
    }
  }

  /** `{ total, count }` of one competitor's positions in one half. */
  datatype PositionSum = PositionSum(total: int, count: int)

  type HalfSums = OrderedMap<string, PositionSum>

  function AddPosition(h: HalfSums, id: string, pos: int): HalfSums {
    var current := GetOr(h, id, PositionSum(0, 0));
    Set(h, id, PositionSum(current.total + pos, current.count + 1))
  }

  function AddFrom(h: HalfSums, standings: seq<Standing>, k: nat): HalfSums
    requires k <= |standings|
    decreases |standings| - k
  {
    if k == |standings| then h else AddFrom(AddPosition(h, standings[k].competitor.id, k + 1), standings, k + 1)
  }

  /** `firstHalfAvg` and `secondHalfAvg`. */
  datatype Halves = Halves(first: HalfSums, second: HalfSums)

  function InFirstHalf(firstIds: seq<string>): RoundResult -> bool {
    (r: RoundResult) => r.round.id in firstIds
  }

  function InSecondHalf(firstIds: seq<string>): RoundResult -> bool {
    (r: RoundResult) => r.round.id !in firstIds
  }

  /** The loop over `roundResults`: each round adds its positions to the half
      its id belongs to. */
  function SplitResults(hv: Halves, results: seq<RoundResult>, firstIds: seq<string>): Halves
    decreases |results|
  {
    if |results| == 0 then hv
    else
      var r := results[0];
      var next := if r.round.id in firstIds then Halves(AddFrom(hv.first, r.standings, 0), hv.second)
                  else Halves(hv.first, AddFrom(hv.second, r.standings, 0));
      SplitResults(next, results[1..], firstIds)
  }

  function HalfAverages(rounds: seq<Round>, results: seq<RoundResult>, timeOf: string -> int): Halves {
    SplitResults(Halves([], []), results, FirstHalfIds(rounds, timeOf))
  }

  /** A sum that holds a list's total and length. */
  function Summary(base: PositionSum, ps: seq<int>): PositionSum {
    PositionSum(base.total + SumInts(ps), base.count + |ps|)
  }

  lemma {:induction false} AddFromGet(h: HalfSums, standings: seq<Standing>, k: nat, id: string)
    requires k <= |standings|
    ensures GetOr(AddFrom(h, standings, k), id, PositionSum(0, 0)) == Summary(GetOr(h, id, PositionSum(0, 0)), PlacesFrom(standings, id, k))
    decreases |standings| - k
  {
    if k < |standings| {
      var x := standings[k].competitor.id;
      var current := GetOr(h, x, PositionSum(0, 0));
      if x == id {
        SetGet(h, id, PositionSum(current.total + k + 1, current.count + 1));
      } else {
        SetGetOther(h, x, PositionSum(current.total + k + 1, current.count + 1), id);
      }
      AddFromGet(AddPosition(h, x, k + 1), standings, k + 1, id);
      SumIntsAppend(if x == id then [k + 1] else [], PlacesFrom(standings, id, k + 1));
    }
  }

  lemma SummaryAppend(base: PositionSum, a: seq<int>, b: seq<int>)
    ensures Summary(Summary(base, a), b) == Summary(base, a + b)
  {
    SumIntsAppend(a, b);
  }

  lemma {:induction false} SplitResultsGet(hv: Halves, results: seq<RoundResult>, firstIds: seq<string>, id: string)
    ensures var r := SplitResults(hv, results, firstIds);
            && GetOr(r.first, id, PositionSum(0, 0)) ==
               Summary(GetOr(hv.first, id, PositionSum(0, 0)), PositionsOf(Filter(results, InFirstHalf(firstIds)), id))
            && GetOr(r.second, id, PositionSum(0, 0)) ==
               Summary(GetOr(hv.second, id, PositionSum(0, 0)), PositionsOf(Filter(results, InSecondHalf(firstIds)), id))
    decreases |results|
  {
    var z := PositionSum(0, 0);
    if results == [] {
      assert Summary(GetOr(hv.first, id, z), []) == GetOr(hv.first, id, z);
      assert Summary(GetOr(hv.second, id, z), []) == GetOr(hv.second, id, z);
    } else {
      var r := results[0];
      var rest := results[1..];
      var next := if r.round.id in firstIds then Halves(AddFrom(hv.first, r.standings, 0), hv.second)
                  else Halves(hv.first, AddFrom(hv.second, r.standings, 0));
      SplitResultsGet(next, rest, firstIds, id);
      var places := PlacesFrom(r.standings, id, 0);
      if r.round.id in firstIds {
        AddFromGet(hv.first, r.standings, 0, id);
        PositionsOfCons(r, Filter(rest, InFirstHalf(firstIds)), id);
        SummaryAppend(GetOr(hv.first, id, z), places, PositionsOf(Filter(rest, InFirstHalf(firstIds)), id));
      } else {
        AddFromGet(hv.second, r.standings, 0, id);
        PositionsOfCons(r, Filter(rest, InSecondHalf(firstIds)), id);
        SummaryAppend(GetOr(hv.second, id, z), places, PositionsOf(Filter(rest, InSecondHalf(firstIds)), id));
      }
    }
  }

  /** Each half holds, per competitor, the total and the number of their
      positions in the rounds of that half. */
  lemma HalfAveragesGet(rounds: seq<Round>, results: seq<RoundResult>, timeOf: string -> int, id: string)
    ensures var ids := FirstHalfIds(rounds, timeOf);
            var hv := HalfAverages(rounds, results, timeOf);
            var early := PositionsOf(Filter(results, InFirstHalf(ids)), id);
            var late := PositionsOf(Filter(results, InSecondHalf(ids)), id);
            && GetOr(hv.first, id, PositionSum(0, 0)) == PositionSum(SumInts(early), |early|)
            && GetOr(hv.second, id, PositionSum(0, 0)) == PositionSum(SumInts(late), |late|)
  {
    SplitResultsGet(Halves([], []), results, FirstHalfIds(rounds, timeOf), id);
  }

  function Average(p: PositionSum): real
    requires p.count > 0
  {
    p.total as real / p.count as real
  }

  /** Both halves known with at least three positions each. */
  predicate Comparable(from: HalfSums, to: HalfSums, id: string) {
    Get(from, id).Some? && Get(to, id).Some? && Get(from, id).value.count >= 3 && Get(to, id).value.count >= 3
  }

  /** The competitors loop of both rules: the average position in `to` minus
      the average position in `from`. */
  function Changes(m: OrderedMap<string, real>, competitors: seq<Competitor>, from: HalfSums, to: HalfSums): OrderedMap<string, real>
    decreases |competitors|
  {
    if |competitors| == 0 then m
    else
      var id := competitors[0].id;
      var next := if Comparable(from, to, id) then Set(m, id, Average(Get(to, id).value) - Average(Get(from, id).value)) else m;
      Changes(next, competitors[1..], from, to)
  }

  /** `fallByCompetitor`: later average minus earlier average. */
  function FallByCompetitor(competitors: seq<Competitor>, rounds: seq<Round>, results: seq<RoundResult>, timeOf: string -> int): OrderedMap<string, real> {
    var hv := HalfAverages(rounds, results, timeOf);
    Changes([], competitors, hv.first, hv.second)
  }

  /** `riseByCompetitor`: earlier average minus later average. */
  function RiseByCompetitor(competitors: seq<Competitor>, rounds: seq<Round>, results: seq<RoundResult>, timeOf: string -> int): OrderedMap<string, real> {
    var hv := HalfAverages(rounds, results, timeOf);
    Changes([], competitors, hv.second, hv.first)
  }

  lemma {:induction false} ChangesGet(m: OrderedMap<string, real>, competitors: seq<Competitor>, from: HalfSums, to: HalfSums, id: string)
    ensures Get(Changes(m, competitors, from, to), id) ==
            if id in Ids(competitors) && Comparable(from, to, id)
            then Some(Average(Get(to, id).value) - Average(Get(from, id).value))
            else Get(m, id)
    decreases |competitors|
  {
    if competitors != [] {
      var c := competitors[0].id;
      var next := if Comparable(from, to, c) then Set(m, c, Average(Get(to, c).value) - Average(Get(from, c).value)) else m;
      ChangesGet(next, competitors[1..], from, to, id);
      if Comparable(from, to, c) {
        if c == id {
          SetGet(m, id, Average(Get(to, id).value) - Average(Get(from, id).value));
        } else {
          SetGetOther(m, c, Average(Get(to, c).value) - Average(Get(from, c).value), id);
        }
      }
      IdsCons(competitors);
    }
  }

  /** The redemption arc is the fall from grace turned round: the same
      competitors, with the opposite change. */
  lemma RiseIsNegatedFall(competitors: seq<Competitor>, rounds: seq<Round>, results: seq<RoundResult>, timeOf: string -> int, id: string)
    ensures var fall := Get(FallByCompetitor(competitors, rounds, results, timeOf), id);
            var rise := Get(RiseByCompetitor(competitors, rounds, results, timeOf), id);
            (rise.Some? <==> fall.Some?) && (rise.Some? ==> rise.value == -fall.value)
  {
    var hv := HalfAverages(rounds, results, timeOf);
    ChangesGet([], competitors, hv.first, hv.second, id);
    ChangesGet([], competitors, hv.second, hv.first, id);
  }

  /** A competitor's fall is known exactly when they have three or more
      positions in each half, and is their average position in the later
      rounds minus that in the earlier rounds. */
  lemma FallFacts(competitors: seq<Competitor>, rounds: seq<Round>, results: seq<RoundResult>, timeOf: string -> int, id: string)
    ensures var ids := FirstHalfIds(rounds, timeOf);
            var early := PositionsOf(Filter(results, InFirstHalf(ids)), id);
            var late := PositionsOf(Filter(results, InSecondHalf(ids)), id);
            var fall := Get(FallByCompetitor(competitors, rounds, results, timeOf), id);
            && (fall.Some? <==> id in Ids(competitors) && |early| >= 3 && |late| >= 3)
            && (fall.Some? ==> fall.value == Mean(late) - Mean(early))
  {
    var hv := HalfAverages(rounds, results, timeOf);
    ChangesGet([], competitors, hv.first, hv.second, id);
    HalfAveragesGet(rounds, results, timeOf, id);
    var z := PositionSum(0, 0);
    if Get(hv.first, id).None? {
      assert GetOr(hv.first, id, z) == z;
    }
    if Get(hv.second, id).None? {
      assert GetOr(hv.second, id, z) == z;
    }
  }

  /** The nested loop that fills both halves. */
  method HalvesLoop(results: seq<RoundResult>, firstIds: seq<string>) returns (hv: Halves)
    ensures hv == SplitResults(Halves([], []), results, firstIds)
  {
    var firstHalf: HalfSums := [];
    var secondHalf: HalfSums := [];
    var i := 0;
    while i < |results|
      invariant 0 <= i <= |results|
      invariant SplitResults(Halves(firstHalf, secondHalf), results[i..], firstIds) == SplitResults(Halves([], []), results, firstIds)
    {
      DropHead(results, i);
      var result := results[i];
      var isFirstHalf := result.round.id in firstIds;
      var target := if isFirstHalf then firstHalf else secondHalf;
      ghost var start := target;
      var index := 0;
      while index < |result.standings|
        invariant 0 <= index <= |result.standings|
        invariant AddFrom(target, result.standings, index) == AddFrom(start, result.standings, 0)
      {
        var id := result.standings[index].competitor.id;
        var current := GetOr(target, id, PositionSum(0, 0));
        target := Set(target, id, PositionSum(current.total + index + 1, current.count + 1));
        index := index + 1;
      }
      if isFirstHalf {
        firstHalf := target;
      } else {
        secondHalf := target;
      }
      i := i + 1;
    }
    hv := Halves(firstHalf, secondHalf);
  }

  /** The competitors loop shared by the two rules. */
  method ChangesLoop(competitors: seq<Competitor>, from: HalfSums, to: HalfSums) returns (m: OrderedMap<string, real>)
    ensures m == Changes([], competitors, from, to)
  {
    m := [];
    var i := 0;
    while i < |competitors|
      invariant 0 <= i <= |competitors|
      invariant Changes(m, competitors[i..], from, to) == Changes([], competitors, from, to)
    {
      DropHead(competitors, i);
      var id := competitors[i].id;
      var first := Get(from, id);
      var second := Get(to, id);
      if first.Some? && second.Some? && first.value.count >= 3 && second.value.count >= 3 {
        var firstAvgPos := first.value.total as real / first.value.count as real;
        var secondAvgPos := second.value.total as real / second.value.count as real;
        m := Set(m, id, secondAvgPos - firstAvgPos);
      }
      i := i + 1;
    }
  }
}
